/**
 * The order-intake conversation of the laundry bot: the `ConversationHandler` table of
 * `src/bot/main.py`, the handlers of `src/bot/handlers/order.py` and `src/bot/handlers/start.py`,
 * over the states of `src/bot/states.py`.
 *
 * A chat is at a `Position` (idle, or at one of the `OrderStates`) and owns a `Session`, the
 * handlers' `context.user_data` dictionary, one optional field per key. Answers of repository
 * calls that are not part of this model arrive in an `Env`; writes to the store leave as `Effect`s.
 */
module Conversation {
  import opened Wrappers
  import opened Text
  import opened Enums
  import S = States

  // ------------------------------------------------------------- inputs and environment

  /** Where the conversation is: idle (never started, or ended) or at a state. */
  datatype Position = Idle | At(state: S.OrderState)

  /** The updates the conversation reacts to. */
  datatype Input =
    | Command(name: string)         // a message that starts with a bot command, `/<name>`
    | Text(text: string)            // a text message that is not a command
    | Callback(data: string)        // an inline button press with its callback data
    | Contact(phoneNumber: string)  // a shared contact

  /**
   * What `Repository.get_client_by_telegram_id` and `resolve_client_street` report for a known client.
   * `apartment` is None when the returned object has no `apartment` attribute (the `Client` record
   * of `src/models.py` has none).
   */
  datatype StoredProfile = StoredProfile(id: int, name: string, phone: string, street: string,
                                         house: string, apartment: Option<string>, entrance: string)

  /** The user, chat and message of the update, and the answers of the store for this step. */
  datatype Env = Env(telegramId: int, chatId: int, messageId: int, profile: Option<StoredProfile>, newOrderId: int)

  /** `ServiceCyrillic` / `ServiceCyrillicSlugMap`: the button captions of the services and their slugs. */
  datatype Config = Config(serviceNames: map<string, ServiceSlug>)

  /** `Pricing.total_price_message(services)`: a text determined by the selection alone. */
  datatype PriceText = TotalPriceMessage(services: map<ServiceSlug, bool>)

  // ------------------------------------------------------------- session data

  /** The `context.user_data` keys the handlers use. */
  datatype Key =
    | ClientId | ClientExists | ClientChanged
    | Phone | Name | Street | House | Apartment | Entrance
    | Services | OrderPrice | OrderId
  {
    function PyName(): string {
      match this
      case ClientId => "client_id"
      case ClientExists => "client_exists"
      case ClientChanged => "client_changed"
      case Phone => "phone"
      case Name => "name"
      case Street => "street"
      case House => "house"
      case Apartment => "apartment"
      case Entrance => "entrance"
      case Services => "services"
      case OrderPrice => "order_price"
      case OrderId => "order_id"
    }
  }

  /** `context.user_data`: None is an absent key. */
  datatype Session = Session(
    clientId: Option<int>,
    clientExists: Option<bool>,
    clientChanged: Option<bool>,
    phone: Option<string>,
    name: Option<string>,
    street: Option<string>,
    house: Option<string>,
    apartment: Option<string>,
    entrance: Option<string>,
    services: Option<map<ServiceSlug, bool>>,
    orderPrice: Option<PriceText>,
    orderId: Option<int>)

  const EmptySession: Session := Session(None, None, None, None, None, None, None, None, None, None, None, None)

  predicate Has(s: Session, k: Key) {
    match k
    case ClientId => s.clientId.Some?
    case ClientExists => s.clientExists.Some?
    case ClientChanged => s.clientChanged.Some?
    case Phone => s.phone.Some?
    case Name => s.name.Some?
    case Street => s.street.Some?
    case House => s.house.Some?
    case Apartment => s.apartment.Some?
    case Entrance => s.entrance.Some?
    case Services => s.services.Some?
    case OrderPrice => s.orderPrice.Some?
    case OrderId => s.orderId.Some?
  }

  const AllKeys: seq<Key> :=
    [ClientId, ClientExists, ClientChanged, Phone, Name, Street, House, Apartment, Entrance,
     Services, OrderPrice, OrderId]

  /** The keys present in the session. */
  function Keys(s: Session): set<Key> {
    set k | k in AllKeys && Has(s, k)
  }

  /** `Keys` lists exactly the present keys. */
  lemma KeysHas(s: Session, k: Key)
    ensures k in AllKeys
    ensures k in Keys(s) <==> Has(s, k)
  {
    match k
    case ClientId => case ClientExists => case ClientChanged => case Phone => case Name =>
    case Street => case House => case Apartment => case Entrance => case Services =>
    case OrderPrice => case OrderId =>
  }

  /** The first of `keys` the session lacks: the key `context.user_data[...]` raises KeyError for. */
  function FirstMissing(s: Session, keys: seq<Key>): (r: Option<Key>)
    ensures r.None? <==> forall i :: 0 <= i < |keys| ==> Has(s, keys[i])
    ensures r.Some? ==> r.value in keys && !Has(s, r.value)
  {
    if keys == [] then None
    else if !Has(s, keys[0]) then Some(keys[0])
    else FirstMissing(s, keys[1..])
  }

  /** The keys `ORDER_CHECKUP_TEXT.format(...)`, `create_client` and `update_client` read, in argument order. */
  const ContactKeys: seq<Key> := [Name, Phone, Street, House, Apartment, Entrance]

  /** `{service: False for service in ServiceSlug}`. */
  const NoServices: map<ServiceSlug, bool> :=
    map[Base := false, IroningSvc := false, Conditioner := false, VacuumPack := false,
        ExactTime := false, Uv := false, WashBag := false]

  /** A selection with an entry for every `ServiceSlug`. */
  predicate TotalSelection(m: map<ServiceSlug, bool>) {
    forall k: ServiceSlug :: k in m
  }

  // ------------------------------------------------------------- outcomes

  /** The exception a handler raises. */
  datatype HandlerError =
    | MissingKey(key: Key)              // KeyError on `context.user_data[key]`
    | MissingService(slug: ServiceSlug) // KeyError on `services[slug]`
    | MissingAttribute(attr: string)    // AttributeError on the stored client
    | IndexOutOfRange                   // IndexError on `query.data.split('_')[1]`

  /** The client columns passed to `create_client` / `update_client`. */
  datatype ClientFields = ClientFields(telegramId: int, name: string, phone: string, street: string,
                                       house: string, apartment: string, entrance: string)

  /** The store writes a handler requests, in the order it requests them. */
  datatype Effect =
    | CreateClient(fields: ClientFields)
    | UpdateClient(fields: ClientFields)
    | CreateOrder(telegramId: int, chatId: int, messageId: int, services: map<ServiceSlug, bool>)
    | UpdateOrderStatus(orderId: int, status: OrderStatusName, payment: PaymentStatus)

  /** A handler either returns the next position or raises; user_data edits made before a raise are kept. */
  datatype Reply =
    | Returned(next: Position, session: Session, effects: seq<Effect>)
    | Raised(error: HandlerError, session: Session, effects: seq<Effect>)

  // ------------------------------------------------------------- handlers

  /** `start`: clear user_data and go to INFO. */
  function StartReply(s: Session): Reply {
    Returned(At(S.Info), EmptySession, [])
  }

  /** `ask_phone`: a known client is offered its stored details, an unknown one is asked for a phone. */
  function AskPhoneReply(env: Env, s: Session): Reply {
    match env.profile
    case Some(c) =>
      var s1 := s.(clientId := Some(c.id), clientExists := Some(true), clientChanged := Some(false));
      if c.apartment.None? then Raised(MissingAttribute("apartment"), s1, [])
      else Returned(At(S.ReuseQuestion), s1, [])
    case None =>
      Returned(At(S.GetPhone), s.(clientExists := Some(false), clientChanged := Some(true)), [])
  }

  /** `client_confirm_ok`: copy the stored profile into user_data and go straight to the services. */
  function ClientConfirmOkReply(env: Env, s: Session): Reply {
    match env.profile
    case None => Raised(MissingAttribute("name"), s, [])
    case Some(c) =>
      if c.apartment.None? then Raised(MissingAttribute("apartment"), s, [])
      else Returned(At(S.SelectServices),
                    s.(name := Some(c.name), phone := Some(c.phone), street := Some(c.street),
                       house := Some(c.house), apartment := c.apartment, entrance := Some(c.entrance)),
                    [])
  }

  /** `client_confirm_edit`: mark the client as changed and collect the details again. */
  function ClientConfirmEditReply(s: Session): Reply {
    Returned(At(S.GetPhone), s.(clientChanged := Some(true)), [])
  }

  function GetPhoneReply(phoneNumber: string, s: Session): Reply {
    Returned(At(S.GetName), s.(phone := Some(phoneNumber), clientChanged := Some(true)), [])
  }

  function GetNameReply(text: string, s: Session): Reply {
    Returned(At(S.GetStreet), s.(name := Some(Strip(text))), [])
  }

  /** `street_map.get(code, 'Мытищинская')`. */
  function StreetFor(code: string): string {
    if code == "nov" then "Новорождественская"
    else if code == "mit" then "Мытищинская"
    else "Мытищинская"
  }

  function GetStreetReply(data: string, s: Session): Reply {
    var parts := Split(data, '_');
    if |parts| < 2 then Raised(IndexOutOfRange, s, [])
    else Returned(At(S.GetHouse), s.(street := Some(StreetFor(parts[1]))), [])
  }

  function GetHouseReply(text: string, s: Session): Reply {
    Returned(At(S.GetApartment), s.(house := Some(Strip(text))), [])
  }

  function GetApartmentReply(text: string, s: Session): Reply {
    Returned(At(S.GetEntrance), s.(apartment := Some(Strip(text))), [])
  }

  function GetEntranceReply(text: string, s: Session): Reply {
    Returned(At(S.SelectServices), s.(entrance := Some(Strip(text))), [])
  }

  /** The selection `select_services` works on: the stored one, or all services off (not stored). */
  function SelectionOf(s: Session): map<ServiceSlug, bool> {
    s.services.GetOr(NoServices)
  }

  /**
   * `select_services`: "Готово" anywhere in the stripped text finishes the selection; a service
   * caption toggles that service and stores the selection; any other text changes nothing.
   */
  function SelectServicesReply(config: Config, text: string, s: Session): Reply {
    var t := Strip(text);
    var services := SelectionOf(s);
    if Contains(t, "Готово") then
      match FirstMissing(s, ContactKeys)
      case Some(k) => Raised(MissingKey(k), s, [])
      case None => Returned(At(S.Confirm), s.(orderPrice := Some(TotalPriceMessage(services))), [])
    else if t in config.serviceNames then
      var slug := config.serviceNames[t];
      if slug !in services then Raised(MissingService(slug), s, [])
      else Returned(At(S.SelectServices), s.(services := Some(services[slug := !services[slug]])), [])
    else Returned(At(S.SelectServices), s, [])
  }

  /** The client columns read from user_data, or the KeyError of the first missing one. */
  function FieldsOf(env: Env, s: Session): (r: Result<ClientFields, HandlerError>)
    ensures r.Failure? <==> FirstMissing(s, ContactKeys).Some?
  {
    match FirstMissing(s, ContactKeys)
    case Some(k) => Failure(MissingKey(k))
    case None =>
      assert Has(s, ContactKeys[0]) && Has(s, ContactKeys[1]) && Has(s, ContactKeys[2]);
      assert Has(s, ContactKeys[3]) && Has(s, ContactKeys[4]) && Has(s, ContactKeys[5]);
      Success(ClientFields(env.telegramId, s.name.value, s.phone.value, s.street.value,
                           s.house.value, s.apartment.value, s.entrance.value))
  }

  /** The client step of `payment_question`: create, update, or reuse the stored client. */
  function ClientWrites(env: Env, s: Session, exists_: bool): Result<seq<Effect>, HandlerError> {
    if !exists_ then
      match FieldsOf(env, s)
      case Failure(e) => Failure(e)
      case Success(f) => Success([CreateClient(f)])
    else
      match s.clientChanged
      case None => Failure(MissingKey(ClientChanged))
      case Some(changed) =>
        if !changed then Success([])
        else match FieldsOf(env, s)
             case Failure(e) => Failure(e)
             case Success(f) => Success([UpdateClient(f)])
  }

  /** `payment_question`: write the client as needed, create the order, remember its id. */
  function PaymentQuestionReply(env: Env, s: Session): Reply {
    match s.clientExists
    case None => Raised(MissingKey(ClientExists), s, [])
    case Some(exists_) =>
      match ClientWrites(env, s, exists_)
      case Failure(e) => Raised(e, s, [])
      case Success(writes) =>
        match s.services
        case None => Raised(MissingKey(Services), s, writes)
        case Some(services) =>
          Returned(At(S.PaymentQuestion), s.(orderId := Some(env.newOrderId)),
                   writes + [CreateOrder(env.telegramId, env.chatId, env.messageId, services)])
  }

  /** `payment_yes`: render the receipt, mark the order (NEW, SUCCEEDED) and end. */
  function PaymentYesReply(s: Session): Reply {
    match FirstMissing(s, ContactKeys + [OrderPrice])
    case Some(k) => Raised(MissingKey(k), s, [])
    case None =>
      match s.orderId
      case None => Raised(MissingKey(OrderId), s, [])
      case Some(id) => Returned(Idle, s, [UpdateOrderStatus(id, New, Succeeded)])
  }

  /** `payment_no`: mark the order (CANCELED, CANCELED) and end. */
  function PaymentNoReply(s: Session): Reply {
    match s.orderId
    case None => Raised(MissingKey(OrderId), s, [])
    case Some(id) => Returned(Idle, s, [UpdateOrderStatus(id, Canceled, PaymentCanceled)])
  }

  // ------------------------------------------------------------- routing

  datatype Handler =
    | Start | AskPhone | ClientConfirmOk | ClientConfirmEdit
    | GetPhone | GetName | GetStreet | GetHouse | GetApartment | GetEntrance
    | SelectServices | PaymentQuestion | PaymentYes | PaymentNo

  /** `re.match("^w$", data)`: `$` also matches just before a trailing newline. */
  predicate FullMatch(data: string, w: string) {
    data == w || data == w + "\n"
  }

  predicate IsStart(i: Input) {
    i.Command? && i.name == "start"
  }

  /** The handler the registered table of states selects at a state, without the fallback. */
  function StateHandler(st: S.OrderState, i: Input): Option<Handler> {
    match st
    case Info => if i.Callback? && FullMatch(i.data, "order") then Some(AskPhone) else None
    case ReuseQuestion =>
      if i.Callback? && FullMatch(i.data, "client_ok") then Some(ClientConfirmOk)
      else if i.Callback? && FullMatch(i.data, "client_edit") then Some(ClientConfirmEdit)
      else None
    case GetPhone => if i.Contact? then Some(Handler.GetPhone) else None
    case GetName => if i.Text? then Some(Handler.GetName) else None
    case GetStreet => if i.Callback? && StartsWith(i.data, "street_") then Some(Handler.GetStreet) else None
    case GetHouse => if i.Text? then Some(Handler.GetHouse) else None
    case GetApartment => if i.Text? then Some(Handler.GetApartment) else None
    case GetEntrance => if i.Text? then Some(Handler.GetEntrance) else None
    case SelectServices => if i.Text? then Some(Handler.SelectServices) else None
    case Confirm => if i.Callback? && FullMatch(i.data, "confirm") then Some(Handler.PaymentQuestion) else None
    case PaymentQuestion =>
      if i.Callback? && FullMatch(i.data, "paid_yes") then Some(PaymentYes)
      else if i.Callback? && FullMatch(i.data, "paid_no") then Some(PaymentNo)
      else None
    case ReuseConfirm => None
    case ReuseReject => None
    case GetComment => None
  }

  /**
   * `ConversationHandler.check_update` with `allow_reentry=True`: the `/start` entry point is tried
   * first from every position; an idle chat accepts nothing else; then the state's handlers; then
   * the `/start` fallback.
   */
  function Route(p: Position, i: Input): Option<Handler> {
    if IsStart(i) then Some(Start)
    else match p
         case Idle => None
         case At(st) => StateHandler(st, i)
  }

  /** The text, callback data or phone number the handler reads. */
  function Payload(i: Input): string {
    match i
    case Command(n) => n
    case Text(t) => t
    case Callback(d) => d
    case Contact(p) => p
  }

  function Run(h: Handler, config: Config, env: Env, s: Session, payload: string): Reply {
    match h
    case Start => StartReply(s)
    case AskPhone => AskPhoneReply(env, s)
    case ClientConfirmOk => ClientConfirmOkReply(env, s)
    case ClientConfirmEdit => ClientConfirmEditReply(s)
    case GetPhone => GetPhoneReply(payload, s)
    case GetName => GetNameReply(payload, s)
    case GetStreet => GetStreetReply(payload, s)
    case GetHouse => GetHouseReply(payload, s)
    case GetApartment => GetApartmentReply(payload, s)
    case GetEntrance => GetEntranceReply(payload, s)
    case SelectServices => SelectServicesReply(config, payload, s)
    case PaymentQuestion => PaymentQuestionReply(env, s)
    case PaymentYes => PaymentYesReply(s)
    case PaymentNo => PaymentNoReply(s)
  }

  /** The result of one update: where the chat is, its user_data, the writes, and what was raised. */
  datatype Outcome = Outcome(next: Position, session: Session, effects: seq<Effect>, error: Option<HandlerError>)

  /**
   * One update through the conversation. An unmatched update is ignored. A handler that raises
   * leaves the position where it was (but keeps its user_data edits); END (`Idle`) forgets the
   * position but not user_data.
   */
  function Step(config: Config, env: Env, p: Position, s: Session, i: Input): Outcome {
    match Route(p, i)
    case None => Outcome(p, s, [], None)
    case Some(h) =>
      match Run(h, config, env, s, Payload(i))
      case Returned(next, s1, e) => Outcome(next, s1, e, None)
      case Raised(err, s1, e) => Outcome(p, s1, e, Some(err))
  }

  // ------------------------------------------------------------- reachable sessions

  /** States the table has no entry for: nothing but `/start` leads out of them. */
  predicate Dead(st: S.OrderState) {
    st == S.ReuseConfirm || st == S.ReuseReject || st == S.GetComment
  }

  /** How many of phone, name, street, house, apartment, entrance have been collected at `st`. */
  function Collected(st: S.OrderState): nat {
    match st
    case GetPhone => 0
    case GetName => 1
    case GetStreet => 2
    case GetHouse => 3
    case GetApartment => 4
    case GetEntrance => 5
    case SelectServices => 6
    case Confirm => 6
    case PaymentQuestion => 6
    case _ => 0
  }

  /**
   * The keys user_data holds at `st`: the client flags once `ask_phone` has run, the client id at
   * REUSE_QUESTION, the first `Collected(st)` contact fields and no others, a selection only once
   * services are offered (and always once the order exists), the price text from CONFIRM on and the
   * order id at PAYMENT_QUESTION.
   */
  predicate Fits(s: Session, st: S.OrderState) {
    var n := Collected(st);
    && (st != S.Info ==> s.clientExists.Some? && s.clientChanged.Some?)
    && (st == S.ReuseQuestion ==> s.clientId.Some?)
    && (s.phone.Some? <==> 0 < n)
    && (s.name.Some? <==> 1 < n)
    && (s.street.Some? <==> 2 < n)
    && (s.house.Some? <==> 3 < n)
    && (s.apartment.Some? <==> 4 < n)
    && (s.entrance.Some? <==> 5 < n)
    && (s.services.Some? ==> n == 6)
    && (st == S.PaymentQuestion ==> s.services.Some?)
    && (s.orderPrice.Some? <==> st == S.Confirm || st == S.PaymentQuestion)
    && (s.orderId.Some? <==> st == S.PaymentQuestion)
  }

  /**
   * What holds of every chat the conversation can produce: it is never at a dead state, user_data
   * holds the keys `Fits` names for its state, and a stored selection covers every service.
   */
  predicate Inv(p: Position, s: Session) {
    match p
    case Idle => true
    case At(st) =>
      && !Dead(st)
      && Fits(s, st)
      && (s.services.Some? ==> TotalSelection(s.services.value))
  }

  /** `start` is accepted from every position and always yields INFO with empty user_data. */
  lemma RestartFromAnyPosition(config: Config, env: Env, p: Position, s: Session)
    ensures Step(config, env, p, s, Command("start")) == Outcome(At(S.Info), EmptySession, [], None)
    ensures Keys(EmptySession) == {}
    ensures Inv(At(S.Info), EmptySession)
  {
    forall k ensures k !in Keys(EmptySession) {
      KeysHas(EmptySession, k);
    }
  }

  /** Restarting twice is restarting once. */
  lemma RestartIdempotent(config: Config, env: Env, p: Position, s: Session)
    ensures var o := Step(config, env, p, s, Command("start"));
            Step(config, env, o.next, o.session, Command("start")) == o
  {
  }

  /** Every update from a reachable chat leads to a reachable chat; in particular never to a dead state. */
  lemma StepPreservesInv(config: Config, env: Env, p: Position, s: Session, i: Input)
    requires Inv(p, s)
    ensures Inv(Step(config, env, p, s, i).next, Step(config, env, p, s, i).session)
  {
    match Route(p, i)
    case None =>
    case Some(h) =>
      if h == Start {
        RestartFromAnyPosition(config, env, p, s);
      } else {
        StateStepKeepsInv(config, env, p.state, s, i);
      }
  }

  /** The chat is reachable after a handler ran at `st`: at the returned position, or still at `st` after a raise. */
  predicate InvAfter(st: S.OrderState, r: Reply) {
    Inv(if r.Returned? then r.next else At(st), r.session)
  }

  /** The same for the handlers of the states table, one state at a time. */
  lemma StateStepKeepsInv(config: Config, env: Env, st: S.OrderState, s: Session, i: Input)
    requires Inv(At(st), s) && StateHandler(st, i).Some?
    ensures InvAfter(st, Run(StateHandler(st, i).value, config, env, s, Payload(i)))
  {
    match st
    case Info => AtInfoKeepsInv(config, env, s, i);
    case ReuseQuestion => AtReuseQuestionKeepsInv(config, env, s, i);
    case GetPhone => AtGetPhoneKeepsInv(config, env, s, i);
    case GetName => AtGetNameKeepsInv(config, env, s, i);
    case GetStreet => AtGetStreetKeepsInv(config, env, s, i);
    case GetHouse => AtGetHouseKeepsInv(config, env, s, i);
    case GetApartment => AtGetApartmentKeepsInv(config, env, s, i);
    case GetEntrance => AtGetEntranceKeepsInv(config, env, s, i);
    case SelectServices => AtSelectServicesKeepsInv(config, env, s, i);
    case Confirm => AtConfirmKeepsInv(config, env, s, i);
    case PaymentQuestion => AtPaymentQuestionKeepsInv(config, env, s, i);
  }

  lemma AtInfoKeepsInv(config: Config, env: Env, s: Session, i: Input)
    requires Inv(At(S.Info), s) && StateHandler(S.Info, i).Some?
    ensures InvAfter(S.Info, Run(StateHandler(S.Info, i).value, config, env, s, Payload(i)))
  {
    var h := StateHandler(S.Info, i).value;
    var x := Payload(i);
    assert h == AskPhone;
    AskPhoneKeepsInv(env, s);
  }

  lemma AtReuseQuestionKeepsInv(config: Config, env: Env, s: Session, i: Input)
    requires Inv(At(S.ReuseQuestion), s) && StateHandler(S.ReuseQuestion, i).Some?
    ensures InvAfter(S.ReuseQuestion, Run(StateHandler(S.ReuseQuestion, i).value, config, env, s, Payload(i)))
  {
    var h := StateHandler(S.ReuseQuestion, i).value;
    var x := Payload(i);
    assert h == ClientConfirmOk || h == ClientConfirmEdit;
    ReuseKeepsInv(env, s);
  }

  lemma AtGetPhoneKeepsInv(config: Config, env: Env, s: Session, i: Input)
    requires Inv(At(S.GetPhone), s) && StateHandler(S.GetPhone, i).Some?
    ensures InvAfter(S.GetPhone, Run(StateHandler(S.GetPhone, i).value, config, env, s, Payload(i)))
  {
    var h := StateHandler(S.GetPhone, i).value;
    var x := Payload(i);
    assert h == Handler.GetPhone;
    GetPhoneKeepsInv(x, s);
  }

  lemma AtGetNameKeepsInv(config: Config, env: Env, s: Session, i: Input)
    requires Inv(At(S.GetName), s) && StateHandler(S.GetName, i).Some?
    ensures InvAfter(S.GetName, Run(StateHandler(S.GetName, i).value, config, env, s, Payload(i)))
  {
    var h := StateHandler(S.GetName, i).value;
    var x := Payload(i);
    assert h == Handler.GetName;
    GetNameKeepsInv(x, s);
  }

  lemma AtGetStreetKeepsInv(config: Config, env: Env, s: Session, i: Input)
    requires Inv(At(S.GetStreet), s) && StateHandler(S.GetStreet, i).Some?
    ensures InvAfter(S.GetStreet, Run(StateHandler(S.GetStreet, i).value, config, env, s, Payload(i)))
  {
    var h := StateHandler(S.GetStreet, i).value;
    var x := Payload(i);
    assert h == Handler.GetStreet;
    GetStreetKeepsInv(x, s);
  }

  lemma AtGetHouseKeepsInv(config: Config, env: Env, s: Session, i: Input)
    requires Inv(At(S.GetHouse), s) && StateHandler(S.GetHouse, i).Some?
    ensures InvAfter(S.GetHouse, Run(StateHandler(S.GetHouse, i).value, config, env, s, Payload(i)))
  {
    var h := StateHandler(S.GetHouse, i).value;
    var x := Payload(i);
    assert h == Handler.GetHouse;
    GetHouseKeepsInv(x, s);
  }

  lemma AtGetApartmentKeepsInv(config: Config, env: Env, s: Session, i: Input)
    requires Inv(At(S.GetApartment), s) && StateHandler(S.GetApartment, i).Some?
    ensures InvAfter(S.GetApartment, Run(StateHandler(S.GetApartment, i).value, config, env, s, Payload(i)))
  {
    var h := StateHandler(S.GetApartment, i).value;
    var x := Payload(i);
    assert h == Handler.GetApartment;
    GetApartmentKeepsInv(x, s);
  }

  lemma AtGetEntranceKeepsInv(config: Config, env: Env, s: Session, i: Input)
    requires Inv(At(S.GetEntrance), s) && StateHandler(S.GetEntrance, i).Some?
    ensures InvAfter(S.GetEntrance, Run(StateHandler(S.GetEntrance, i).value, config, env, s, Payload(i)))
  {
    var h := StateHandler(S.GetEntrance, i).value;
    var x := Payload(i);
    assert h == Handler.GetEntrance;
    GetEntranceKeepsInv(x, s);
  }

  lemma AtSelectServicesKeepsInv(config: Config, env: Env, s: Session, i: Input)
    requires Inv(At(S.SelectServices), s) && StateHandler(S.SelectServices, i).Some?
    ensures InvAfter(S.SelectServices, Run(StateHandler(S.SelectServices, i).value, config, env, s, Payload(i)))
  {
    var h := StateHandler(S.SelectServices, i).value;
    var x := Payload(i);
    assert h == Handler.SelectServices;
    SelectServicesKeepsInv(config, x, s);
  }

  lemma AtConfirmKeepsInv(config: Config, env: Env, s: Session, i: Input)
    requires Inv(At(S.Confirm), s) && StateHandler(S.Confirm, i).Some?
    ensures InvAfter(S.Confirm, Run(StateHandler(S.Confirm, i).value, config, env, s, Payload(i)))
  {
    var h := StateHandler(S.Confirm, i).value;
    var x := Payload(i);
    assert h == Handler.PaymentQuestion;
    PaymentQuestionKeepsInv(env, s);
  }

  lemma AtPaymentQuestionKeepsInv(config: Config, env: Env, s: Session, i: Input)
    requires Inv(At(S.PaymentQuestion), s) && StateHandler(S.PaymentQuestion, i).Some?
    ensures InvAfter(S.PaymentQuestion, Run(StateHandler(S.PaymentQuestion, i).value, config, env, s, Payload(i)))
  {
    var h := StateHandler(S.PaymentQuestion, i).value;
    var x := Payload(i);
    PaymentAnswerKeepsInv(s);
    if h == PaymentYes {
      assert Run(h, config, env, s, x) == PaymentYesReply(s);
    } else {
      assert h == PaymentNo;
      assert Run(h, config, env, s, x) == PaymentNoReply(s);
    }
  }

  lemma GetNameKeepsInv(x: string, s: Session)
    requires Inv(At(S.GetName), s)
    ensures InvAfter(S.GetName, GetNameReply(x, s))
  {
  }

  lemma GetHouseKeepsInv(x: string, s: Session)
    requires Inv(At(S.GetHouse), s)
    ensures InvAfter(S.GetHouse, GetHouseReply(x, s))
  {
  }

  lemma GetApartmentKeepsInv(x: string, s: Session)
    requires Inv(At(S.GetApartment), s)
    ensures InvAfter(S.GetApartment, GetApartmentReply(x, s))
  {
  }

  lemma GetEntranceKeepsInv(x: string, s: Session)
    requires Inv(At(S.GetEntrance), s)
    ensures InvAfter(S.GetEntrance, GetEntranceReply(x, s))
  {
  }

  lemma AskPhoneKeepsInv(env: Env, s: Session)
    requires Inv(At(S.Info), s)
    ensures InvAfter(S.Info, AskPhoneReply(env, s))
  {
  }

  lemma ReuseKeepsInv(env: Env, s: Session)
    requires Inv(At(S.ReuseQuestion), s)
    ensures InvAfter(S.ReuseQuestion, ClientConfirmOkReply(env, s))
    ensures InvAfter(S.ReuseQuestion, ClientConfirmEditReply(s))
  {
  }

  lemma GetPhoneKeepsInv(x: string, s: Session)
    requires Inv(At(S.GetPhone), s)
    ensures InvAfter(S.GetPhone, GetPhoneReply(x, s))
  {
  }

  lemma GetStreetKeepsInv(x: string, s: Session)
    requires Inv(At(S.GetStreet), s)
    ensures InvAfter(S.GetStreet, GetStreetReply(x, s))
  {
  }

  lemma PaymentAnswerKeepsInv(s: Session)
    requires Inv(At(S.PaymentQuestion), s)
    ensures InvAfter(S.PaymentQuestion, PaymentYesReply(s))
    ensures InvAfter(S.PaymentQuestion, PaymentNoReply(s))
  {
  }

  lemma PaymentQuestionKeepsInv(env: Env, s: Session)
    requires Inv(At(S.Confirm), s)
    ensures InvAfter(S.Confirm, PaymentQuestionReply(env, s))
  {
  }

  lemma SelectServicesKeepsInv(config: Config, text: string, s: Session)
    requires Inv(At(S.SelectServices), s)
    ensures InvAfter(S.SelectServices, SelectServicesReply(config, text, s))
  {
    var r := SelectServicesReply(config, text, s);
    if r.session.services.Some? && r.session.services != s.services {
      var m := SelectionOf(s);
      assert TotalSelection(m) by {
        if s.services.None? {
          forall k: ServiceSlug ensures k in m { match k case Base => case IroningSvc => case Conditioner =>
            case VacuumPack => case ExactTime => case Uv => case WashBag => }
        }
      }
    }
  }

  // ------------------------------------------------------------- the routing table

  const TextStates: seq<S.OrderState> := [S.GetName, S.GetHouse, S.GetApartment, S.GetEntrance, S.SelectServices]

  /** Which updates each state accepts: its registered handlers, or the `/start` fallback. */
  lemma AcceptedInputs(i: Input)
    ensures Route(Idle, i).Some? <==> IsStart(i)
    ensures Route(At(S.Info), i).Some? <==> IsStart(i) || (i.Callback? && FullMatch(i.data, "order"))
    ensures Route(At(S.ReuseQuestion), i).Some? <==>
              IsStart(i) || (i.Callback? && (FullMatch(i.data, "client_ok") || FullMatch(i.data, "client_edit")))
    ensures Route(At(S.GetPhone), i).Some? <==> IsStart(i) || i.Contact?
    ensures forall k :: 0 <= k < |TextStates| ==> (Route(At(TextStates[k]), i).Some? <==> IsStart(i) || i.Text?)
    ensures Route(At(S.GetStreet), i).Some? <==> IsStart(i) || (i.Callback? && StartsWith(i.data, "street_"))
    ensures Route(At(S.Confirm), i).Some? <==> IsStart(i) || (i.Callback? && FullMatch(i.data, "confirm"))
    ensures Route(At(S.PaymentQuestion), i).Some? <==>
              IsStart(i) || (i.Callback? && (FullMatch(i.data, "paid_yes") || FullMatch(i.data, "paid_no")))
  {
  }

  /** A command other than `/start` is never handled: the text filters exclude commands. */
  lemma OtherCommandsIgnored(config: Config, env: Env, p: Position, s: Session, name: string)
    requires name != "start"
    ensures Step(config, env, p, s, Command(name)) == Outcome(p, s, [], None)
  {
  }

  /** REUSE_CONFIRM, REUSE_REJECT and GET_COMMENT have no table entry: only `/start` leads out of them. */
  lemma DeadStatesOnlyRestart(config: Config, env: Env, st: S.OrderState, s: Session, i: Input)
    requires Dead(st)
    ensures Route(At(st), i).Some? <==> IsStart(i)
    ensures !IsStart(i) ==> Step(config, env, At(st), s, i) == Outcome(At(st), s, [], None)
  {
  }

  /** The cancel button offered with the order summary has no handler at CONFIRM: pressing it changes nothing. */
  lemma CancelButtonIgnored(config: Config, env: Env, s: Session)
    ensures Step(config, env, At(S.Confirm), s, Callback("cancel")) == Outcome(At(S.Confirm), s, [], None)
  {
  }

  // ------------------------------------------------------------- the handlers' promises

  /** `s` with key `k` removed. */
  function Erase(s: Session, k: Key): Session {
    match k
    case ClientId => s.(clientId := None)
    case ClientExists => s.(clientExists := None)
    case ClientChanged => s.(clientChanged := None)
    case Phone => s.(phone := None)
    case Name => s.(name := None)
    case Street => s.(street := None)
    case House => s.(house := None)
    case Apartment => s.(apartment := None)
    case Entrance => s.(entrance := None)
    case Services => s.(services := None)
    case OrderPrice => s.(orderPrice := None)
    case OrderId => s.(orderId := None)
  }

  /** The client flags in `s` with the other keys untouched. */
  function WithClientFlags(s: Session, exists_: bool, changed: bool): Session {
    s.(clientExists := Some(exists_), clientChanged := Some(changed))
  }

  /**
   * `ask_phone`: `client_changed` is the negation of `client_exists`, which says whether the
   * store knows the user; a known client is asked whether to reuse its details, an unknown one
   * is asked for a phone.
   */
  lemma AskPhoneBranches(config: Config, env: Env, s: Session)
    ensures var o := Step(config, env, At(S.Info), s, Callback("order"));
      && o.session.clientExists == Some(env.profile.Some?)
      && o.session.clientChanged == Some(!env.profile.Some?)
      && o.effects == []
      && (env.profile.Some? ==> o.session == WithClientFlags(s, true, false).(clientId := Some(env.profile.value.id)))
      && (env.profile.None? ==> o.session == WithClientFlags(s, false, true))
      && (env.profile.None? ==> o.next == At(S.GetPhone) && o.error.None?)
      && (env.profile.Some? && env.profile.value.apartment.Some? ==> o.next == At(S.ReuseQuestion) && o.error.None?)
  {
  }

  /** `client_confirm_ok` copies the stored profile verbatim and skips the whole collection chain. */
  lemma ReuseCopiesProfile(config: Config, env: Env, s: Session)
    requires env.profile.Some? && env.profile.value.apartment.Some?
    ensures var o := Step(config, env, At(S.ReuseQuestion), s, Callback("client_ok"));
      var c := env.profile.value;
      && o.next == At(S.SelectServices) && o.error.None? && o.effects == []
      && o.session.name == Some(c.name) && o.session.phone == Some(c.phone)
      && o.session.street == Some(c.street) && o.session.house == Some(c.house)
      && o.session.apartment == c.apartment && o.session.entrance == Some(c.entrance)
      && o.session.clientId == s.clientId && o.session.clientExists == s.clientExists
      && o.session.clientChanged == s.clientChanged && o.session.services == s.services
      && o.session.orderPrice == s.orderPrice && o.session.orderId == s.orderId
  {
  }

  /** `client_confirm_edit` marks the client as changed and restarts the collection at GET_PHONE. */
  lemma EditRestartsCollection(config: Config, env: Env, s: Session)
    ensures var o := Step(config, env, At(S.ReuseQuestion), s, Callback("client_edit"));
      o == Outcome(At(S.GetPhone), Erase(s, ClientChanged).(clientChanged := Some(true)), [], None)
  {
  }

  /** The key each step of the collection chain stores. */
  const ChainKeys: seq<Key> := [Phone, Name, Street, House, Apartment, Entrance]

  /**
   * What one step of the collection chain does: at the k-th collection state it stores exactly the
   * k-th contact key (the phone step also marks the client as changed), requests no write and moves
   * to the next state, ending at SELECT_SERVICES. Text answers are stored stripped.
   */
  predicate ChainStepped(s: Session, k: nat, i: Input, o: Outcome)
    requires k < |ChainKeys| == |S.CollectionChain|
  {
    var key := ChainKeys[k];
    var before := if k == 0 then s.(clientChanged := Some(true)) else s;
    && o.error.None? && o.effects == []
    && o.next == At(if k + 1 < |S.CollectionChain| then S.CollectionChain[k + 1] else S.SelectServices)
    && Has(o.session, key)
    && Erase(o.session, key) == Erase(before, key)
    && (k == 0 ==> i.Contact? && o.session.phone == Some(i.phoneNumber))
    && (k == 1 ==> i.Text? && o.session.name == Some(Strip(i.text)))
    && (k == 2 ==> i.Callback? && StartsWith(i.data, "street_") && o.session.street == Some(StreetFor(TakeUntil(i.data[7..], '_'))))
    && (k == 3 ==> i.Text? && o.session.house == Some(Strip(i.text)))
    && (k == 4 ==> i.Text? && o.session.apartment == Some(Strip(i.text)))
    && (k == 5 ==> i.Text? && o.session.entrance == Some(Strip(i.text)))
  }

  /** Every update the k-th collection state accepts, other than `/start`, is one chain step. */
  lemma CollectionChainStep(config: Config, env: Env, s: Session, k: nat, i: Input)
    requires k < |S.CollectionChain|
    requires !IsStart(i) && Route(At(S.CollectionChain[k]), i).Some?
    ensures |ChainKeys| == |S.CollectionChain|
    ensures ChainStepped(s, k, i, Step(config, env, At(S.CollectionChain[k]), s, i))
  {
    if k == 0 { ChainStep0(config, env, s, i); }
    else if k == 1 { ChainStep1(config, env, s, i); }
    else if k == 2 { ChainStep2(config, env, s, i); }
    else if k == 3 { ChainStep3(config, env, s, i); }
    else if k == 4 { ChainStep4(config, env, s, i); }
    else { ChainStep5(config, env, s, i); }
  }

  lemma ChainStep0(config: Config, env: Env, s: Session, i: Input)
    requires !IsStart(i) && Route(At(S.GetPhone), i).Some?
    ensures S.CollectionChain[0] == S.GetPhone
    ensures ChainStepped(s, 0, i, Step(config, env, At(S.GetPhone), s, i))
  {
    assert i.Contact?;
  }

  lemma ChainStep1(config: Config, env: Env, s: Session, i: Input)
    requires !IsStart(i) && Route(At(S.GetName), i).Some?
    ensures S.CollectionChain[1] == S.GetName
    ensures ChainStepped(s, 1, i, Step(config, env, At(S.GetName), s, i))
  {
    assert i.Text?;
  }

  lemma ChainStep2(config: Config, env: Env, s: Session, i: Input)
    requires !IsStart(i) && Route(At(S.GetStreet), i).Some?
    ensures S.CollectionChain[2] == S.GetStreet
    ensures ChainStepped(s, 2, i, Step(config, env, At(S.GetStreet), s, i))
  {
    assert i.Callback? && StartsWith(i.data, "street_");
    StreetCallback(i.data, s);
  }

  lemma ChainStep3(config: Config, env: Env, s: Session, i: Input)
    requires !IsStart(i) && Route(At(S.GetHouse), i).Some?
    ensures S.CollectionChain[3] == S.GetHouse
    ensures ChainStepped(s, 3, i, Step(config, env, At(S.GetHouse), s, i))
  {
    assert i.Text?;
  }

  lemma ChainStep4(config: Config, env: Env, s: Session, i: Input)
    requires !IsStart(i) && Route(At(S.GetApartment), i).Some?
    ensures S.CollectionChain[4] == S.GetApartment
    ensures ChainStepped(s, 4, i, Step(config, env, At(S.GetApartment), s, i))
  {
    assert i.Text?;
  }

  lemma ChainStep5(config: Config, env: Env, s: Session, i: Input)
    requires !IsStart(i) && Route(At(S.GetEntrance), i).Some?
    ensures S.CollectionChain[5] == S.GetEntrance
    ensures ChainStepped(s, 5, i, Step(config, env, At(S.GetEntrance), s, i))
  {
    assert i.Text?;
  }

  /** `get_street` reads the code between the first and the second underscore and maps it to a street. */
  lemma StreetCallback(data: string, s: Session)
    requires StartsWith(data, "street_")
    ensures GetStreetReply(data, s) ==
            Returned(At(S.GetHouse), s.(street := Some(StreetFor(TakeUntil(data[7..], '_')))), [])
  {
    assert data == "street" + ['_'] + data[7..];
    SplitFirst(data, '_');
    assert TakeUntil(data, '_') == "street" by {
      assert data[..6] == "street" && data[6] == '_';
      TakeUntilPrefix(data, 6, '_');
    }
    SplitFirst(data[7..], '_');
  }

  /** The street codes of the street keyboard, and the default for any other code. */
  lemma StreetCodes(s: Session)
    ensures GetStreetReply("street_nov", s).session.street == Some("Новорождественская")
    ensures GetStreetReply("street_mit", s).session.street == Some("Мытищинская")
    ensures forall code :: code != "nov" ==> StreetFor(code) == "Мытищинская"
  {
    StreetCallback("street_nov", s);
    StreetCallback("street_mit", s);
    assert "street_nov"[7..] == "nov";
    assert "street_mit"[7..] == "mit";
    assert TakeUntil("nov", '_') == "nov";
    assert TakeUntil("mit", '_') == "mit";
  }

  // ------------------------------------------------------------- service selection

  /** A caption that toggles a service: not containing "Готово", and one of the service captions. */
  predicate IsToggle(config: Config, text: string) {
    !Contains(Strip(text), "Готово") && Strip(text) in config.serviceNames
  }

  /** The selection `select_services` starts from is total in every reachable SELECT_SERVICES chat. */
  lemma SelectionTotal(s: Session)
    requires s.services.Some? ==> TotalSelection(s.services.value)
    ensures TotalSelection(SelectionOf(s))
  {
    if s.services.None? {
      forall k: ServiceSlug ensures k in NoServices {
        match k
        case Base => case IroningSvc => case Conditioner => case VacuumPack =>
        case ExactTime => case Uv => case WashBag =>
      }
    }
  }

  /**
   * A service caption flips exactly that service, stores the selection, and stays at
   * SELECT_SERVICES; nothing else in user_data changes.
   */
  lemma ToggleFlipsOne(config: Config, env: Env, s: Session, text: string)
    requires Inv(At(S.SelectServices), s) && IsToggle(config, text)
    ensures var o := Step(config, env, At(S.SelectServices), s, Text(text));
      var slug := config.serviceNames[Strip(text)];
      var before := SelectionOf(s);
      && o.next == At(S.SelectServices) && o.error.None? && o.effects == []
      && o.session == s.(services := o.session.services)
      && o.session.services.Some? && TotalSelection(o.session.services.value)
      && o.session.services.value[slug] == !before[slug]
      && (forall k: ServiceSlug :: k != slug ==> o.session.services.value[k] == before[k])
  {
    SelectionTotal(s);
    var m := SelectionOf(s);
    var slug := config.serviceNames[Strip(text)];
    assert slug in m;
    assert Route(At(S.SelectServices), Text(text)) == Some(SelectServices);
    assert SelectServicesReply(config, text, s) ==
           Returned(At(S.SelectServices), s.(services := Some(m[slug := !m[slug]])), []);
  }

  /** Toggling the same service twice gives back the selection the user started from. */
  lemma ToggleTwiceRestores(config: Config, env: Env, s: Session, text: string)
    requires Inv(At(S.SelectServices), s) && IsToggle(config, text)
    ensures var o1 := Step(config, env, At(S.SelectServices), s, Text(text));
      var o2 := Step(config, env, o1.next, o1.session, Text(text));
      o2.next == At(S.SelectServices) && o2.error.None?
      && o2.session == s.(services := Some(SelectionOf(s)))
  {
    SelectionTotal(s);
    var o1 := Step(config, env, At(S.SelectServices), s, Text(text));
    var slug := config.serviceNames[Strip(text)];
    var m := SelectionOf(s);
    assert o1.session.services == Some(m[slug := !m[slug]]);
    assert m[slug := !m[slug]][slug := !!m[slug]] == m;
  }

  /**
   * Text containing "Готово" finishes the selection before any toggle is considered: the chat
   * moves to CONFIRM with the price text of the current selection stored and nothing else changed.
   */
  lemma DoneMovesToConfirm(config: Config, env: Env, s: Session, text: string)
    requires FirstMissing(s, ContactKeys).None? && Contains(Strip(text), "Готово")
    ensures Step(config, env, At(S.SelectServices), s, Text(text)) ==
            Outcome(At(S.Confirm), s.(orderPrice := Some(TotalPriceMessage(SelectionOf(s)))), [], None)
  {
  }

  /** Any other text at SELECT_SERVICES changes nothing. */
  lemma OtherTextIgnored(config: Config, env: Env, s: Session, text: string)
    requires !Contains(Strip(text), "Готово") && Strip(text) !in config.serviceNames
    ensures Step(config, env, At(S.SelectServices), s, Text(text)) == Outcome(At(S.SelectServices), s, [], None)
  {
  }

  /** Pressing "Готово" without toggling anything reaches CONFIRM with no selection stored. */
  lemma DoneWithoutToggleStoresNoSelection(config: Config, env: Env, s: Session, text: string)
    requires Inv(At(S.SelectServices), s) && s.services.None? && Contains(Strip(text), "Готово")
    ensures var o := Step(config, env, At(S.SelectServices), s, Text(text));
            o.next == At(S.Confirm) && o.session.services.None? && Inv(o.next, o.session)
  {
    StepPreservesInv(config, env, At(S.SelectServices), s, Text(text));
  }

  // ------------------------------------------------------------- order creation and payment

  /** The client write `payment_question` requests, given the client flags of a reachable CONFIRM chat. */
  function ExpectedClientWrites(env: Env, s: Session): seq<Effect>
    requires Inv(At(S.Confirm), s)
  {
    if !s.clientExists.value then [CreateClient(FieldsOf(env, s).value)]
    else if s.clientChanged.value then [UpdateClient(FieldsOf(env, s).value)]
    else []
  }

  /**
   * `payment_question` at a reachable CONFIRM chat: the client is created when unknown, updated
   * when changed, reused otherwise; then the order is created from the stored selection and its
   * id remembered. It raises exactly when no selection was ever stored, and then the client write
   * has already been requested.
   */
  lemma PaymentQuestionOutcome(config: Config, env: Env, s: Session)
    requires Inv(At(S.Confirm), s)
    ensures FieldsOf(env, s).Success?
    ensures var o := Step(config, env, At(S.Confirm), s, Callback("confirm"));
      && (o.error.Some? <==> s.services.None?)
      && (s.services.None? ==>
            o == Outcome(At(S.Confirm), s, ExpectedClientWrites(env, s), Some(MissingKey(Services))))
      && (s.services.Some? ==>
            o == Outcome(At(S.PaymentQuestion), s.(orderId := Some(env.newOrderId)),
                         ExpectedClientWrites(env, s) +
                         [CreateOrder(env.telegramId, env.chatId, env.messageId, s.services.value)], None))
  {
    assert FirstMissing(s, ContactKeys).None? by {
      assert forall j :: 0 <= j < |ContactKeys| ==> Has(s, ContactKeys[j]);
    }
  }

  /** `payment_yes` marks the order (NEW, SUCCEEDED) and ends; user_data outlives END. */
  lemma PaymentYesEnds(config: Config, env: Env, s: Session)
    requires Inv(At(S.PaymentQuestion), s)
    ensures Step(config, env, At(S.PaymentQuestion), s, Callback("paid_yes")) ==
            Outcome(Idle, s, [UpdateOrderStatus(s.orderId.value, New, Succeeded)], None)
  {
    assert FirstMissing(s, ContactKeys + [OrderPrice]).None? by {
      assert forall j :: 0 <= j < |ContactKeys + [OrderPrice]| ==> Has(s, (ContactKeys + [OrderPrice])[j]);
    }
  }

  /** `payment_no` marks the order (CANCELED, CANCELED) and ends; user_data outlives END. */
  lemma PaymentNoEnds(config: Config, env: Env, s: Session)
    requires Inv(At(S.PaymentQuestion), s)
    ensures Step(config, env, At(S.PaymentQuestion), s, Callback("paid_no")) ==
            Outcome(Idle, s, [UpdateOrderStatus(s.orderId.value, Canceled, PaymentCanceled)], None)
  {
  }

  // ------------------------------------------------------------- single answers

  /** `get_phone` stores the shared phone number and marks the client as changed. */
  lemma PhoneStep(config: Config, env: Env, s: Session, phone: string)
    ensures Step(config, env, At(S.GetPhone), s, Contact(phone)) ==
            Outcome(At(S.GetName), s.(phone := Some(phone), clientChanged := Some(true)), [], None)
  {
  }

  /** A typed answer at one of the text states of the chain is stored stripped under its key. */
  lemma TextAnswerStep(config: Config, env: Env, st: S.OrderState, s: Session, t: string)
    requires st == S.GetName || st == S.GetHouse || st == S.GetApartment || st == S.GetEntrance
    ensures var o := Step(config, env, At(st), s, Text(t));
      && (st == S.GetName ==> o == Outcome(At(S.GetStreet), s.(name := Some(Strip(t))), [], None))
      && (st == S.GetHouse ==> o == Outcome(At(S.GetApartment), s.(house := Some(Strip(t))), [], None))
      && (st == S.GetApartment ==> o == Outcome(At(S.GetEntrance), s.(apartment := Some(Strip(t))), [], None))
      && (st == S.GetEntrance ==> o == Outcome(At(S.SelectServices), s.(entrance := Some(Strip(t))), [], None))
  {
    var h := match st
      case GetName => Handler.GetName
      case GetHouse => Handler.GetHouse
      case GetApartment => Handler.GetApartment
      case _ => Handler.GetEntrance;
    assert Route(At(st), Text(t)) == Some(h);
    assert Payload(Text(t)) == t;
  }

  /** A street button moves to GET_HOUSE with the street its code names. */
  lemma StreetStep(config: Config, env: Env, s: Session, data: string)
    requires StartsWith(data, "street_")
    ensures Step(config, env, At(S.GetStreet), s, Callback(data)) ==
            Outcome(At(S.GetHouse), s.(street := Some(StreetFor(TakeUntil(data[7..], '_')))), [], None)
  {
    assert Route(At(S.GetStreet), Callback(data)) == Some(Handler.GetStreet);
    StreetCallback(data, s);
  }

  /**
   * Confirming for a new client who never toggled a service: the client row is requested, then
   * reading the selection raises KeyError and the chat stays at CONFIRM.
   */
  lemma ConfirmWithoutSelection(config: Config, env: Env, s: Session)
    requires s.clientExists == Some(false) && s.services.None?
    requires s.name.Some? && s.phone.Some? && s.street.Some? && s.house.Some? && s.apartment.Some? && s.entrance.Some?
    ensures Step(config, env, At(S.Confirm), s, Callback("confirm")) ==
            Outcome(At(S.Confirm), s,
                    [CreateClient(ClientFields(env.telegramId, s.name.value, s.phone.value, s.street.value,
                                               s.house.value, s.apartment.value, s.entrance.value))],
                    Some(MissingKey(Services)))
  {
    assert FirstMissing(s, ContactKeys).None? by {
      assert forall j :: 0 <= j < |ContactKeys| ==> Has(s, ContactKeys[j]);
    }
  }

  // ------------------------------------------------------------- runs

  /** Several updates in a row: the last position and user_data, every write, and the last error. */
  function Replay(config: Config, env: Env, p: Position, s: Session, inputs: seq<Input>): (o: Outcome)
    decreases |inputs|
  {
    if inputs == [] then Outcome(p, s, [], None)
    else
      var first := Step(config, env, p, s, inputs[0]);
      if |inputs| == 1 then first
      else
        var rest := Replay(config, env, first.next, first.session, inputs[1..]);
        Outcome(rest.next, rest.session, first.effects + rest.effects, rest.error)
  }

  /** Replaying from a reachable chat only passes through reachable chats. */
  lemma {:induction false} ReplayPreservesInv(config: Config, env: Env, p: Position, s: Session, inputs: seq<Input>)
    requires Inv(p, s)
    ensures Inv(Replay(config, env, p, s, inputs).next, Replay(config, env, p, s, inputs).session)
    decreases |inputs|
  {
    if inputs != [] {
      StepPreservesInv(config, env, p, s, inputs[0]);
      if |inputs| > 1 {
        var first := Step(config, env, p, s, inputs[0]);
        ReplayPreservesInv(config, env, first.next, first.session, inputs[1..]);
      }
    }
  }

  /** A new user who walks the whole chain and confirms without choosing any service. */
  function NewClientRun(phone: string, name: string, streetData: string, house: string, apartment: string,
                        entrance: string, done: string): seq<Input>
  {
    [Command("start"), Callback("order"), Contact(phone), Text(name), Callback(streetData),
     Text(house), Text(apartment), Text(entrance), Text(done), Callback("confirm")]
  }

  /**
   * Reaching CONFIRM without a toggle breaks order creation: `payment_question` has already
   * requested the new client's row when `context.user_data['services']` raises KeyError, and the
   * chat stays at CONFIRM with the collected details, a price text and no selection.
   */
  lemma NewClientWithoutSelectionFails(config: Config, env: Env, phone: string, name: string, streetData: string,
                                       house: string, apartment: string, entrance: string, done: string)
    requires env.profile.None? && StartsWith(streetData, "street_") && Contains(Strip(done), "Готово")
    ensures var street := StreetFor(TakeUntil(streetData[7..], '_'));
      var stored := Session(None, Some(false), Some(true), Some(phone), Some(Strip(name)), Some(street),
                            Some(Strip(house)), Some(Strip(apartment)), Some(Strip(entrance)), None,
                            Some(TotalPriceMessage(NoServices)), None);
      var row := ClientFields(env.telegramId, Strip(name), phone, street, Strip(house), Strip(apartment), Strip(entrance));
      Replay(config, env, Idle, EmptySession, NewClientRun(phone, name, streetData, house, apartment, entrance, done)) ==
      Outcome(At(S.Confirm), stored, [CreateClient(row)], Some(MissingKey(Services)))
  {
    var street := StreetFor(TakeUntil(streetData[7..], '_'));
    var s1 := WithClientFlags(EmptySession, false, true);
    var s2 := s1.(phone := Some(phone), clientChanged := Some(true));
    var s3 := s2.(name := Some(Strip(name)));
    var s4 := s3.(street := Some(street));
    var run := NewClientRun(phone, name, streetData, house, apartment, entrance, done);
    assert run[5..] == [Text(house), Text(apartment), Text(entrance), Text(done), Callback("confirm")];
    AddressToConfirm(config, env, s4, house, apartment, entrance, done);
    StreetStep(config, env, s3, streetData);
    QuietStep(config, env, At(S.GetStreet), s3, run[4..], At(S.GetHouse), s4);
    TextAnswerStep(config, env, S.GetName, s2, name);
    QuietStep(config, env, At(S.GetName), s2, run[3..], At(S.GetStreet), s3);
    PhoneStep(config, env, s1, phone);
    QuietStep(config, env, At(S.GetPhone), s1, run[2..], At(S.GetName), s2);
    AskPhoneBranches(config, env, EmptySession);
    QuietStep(config, env, At(S.Info), EmptySession, run[1..], At(S.GetPhone), s1);
    RestartFromAnyPosition(config, env, Idle, EmptySession);
    QuietStep(config, env, Idle, EmptySession, run, At(S.Info), EmptySession);
  }

  /** The second half of that run: from GET_HOUSE with phone, name and street stored, to the KeyError. */
  lemma AddressToConfirm(config: Config, env: Env, s4: Session, house: string, apartment: string,
                         entrance: string, done: string)
    requires s4.clientExists == Some(false) && s4.services.None? && Contains(Strip(done), "Готово")
    requires s4.name.Some? && s4.phone.Some? && s4.street.Some?
    ensures var s8 := s4.(house := Some(Strip(house)), apartment := Some(Strip(apartment)),
                          entrance := Some(Strip(entrance)), orderPrice := Some(TotalPriceMessage(NoServices)));
      Replay(config, env, At(S.GetHouse), s4, [Text(house), Text(apartment), Text(entrance), Text(done), Callback("confirm")]) ==
      Outcome(At(S.Confirm), s8,
              [CreateClient(ClientFields(env.telegramId, s4.name.value, s4.phone.value, s4.street.value,
                                         Strip(house), Strip(apartment), Strip(entrance)))],
              Some(MissingKey(Services)))
  {
    var s5 := s4.(house := Some(Strip(house)));
    var s6 := s5.(apartment := Some(Strip(apartment)));
    var s7 := s6.(entrance := Some(Strip(entrance)));
    var s8 := s7.(orderPrice := Some(TotalPriceMessage(NoServices)));
    ConfirmWithoutSelection(config, env, s8);
    assert FirstMissing(s7, ContactKeys).None? by {
      assert forall j :: 0 <= j < |ContactKeys| ==> Has(s7, ContactKeys[j]);
    }
    DoneMovesToConfirm(config, env, s7, done);
    var run := [Text(house), Text(apartment), Text(entrance), Text(done), Callback("confirm")];
    QuietStep(config, env, At(S.SelectServices), s7, run[3..], At(S.Confirm), s8);
    TextAnswerStep(config, env, S.GetEntrance, s6, entrance);
    QuietStep(config, env, At(S.GetEntrance), s6, run[2..], At(S.SelectServices), s7);
    TextAnswerStep(config, env, S.GetApartment, s5, apartment);
    QuietStep(config, env, At(S.GetApartment), s5, run[1..], At(S.GetEntrance), s6);
    TextAnswerStep(config, env, S.GetHouse, s4, house);
    QuietStep(config, env, At(S.GetHouse), s4, run, At(S.GetApartment), s5);
  }

  /** An update that succeeds without writing anything just hands the rest of the run its new chat. */
  lemma QuietStep(config: Config, env: Env, p: Position, s: Session, inputs: seq<Input>, p1: Position, s1: Session)
    requires |inputs| > 1 && Step(config, env, p, s, inputs[0]) == Outcome(p1, s1, [], None)
    ensures Replay(config, env, p, s, inputs) == Replay(config, env, p1, s1, inputs[1..])
  {
  }
}
