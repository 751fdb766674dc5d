/**
 * One chat of the order conversation as the handlers of `src/bot/handlers/order.py` and
 * `src/bot/handlers/start.py` run it: the conversation's current state and the
 * `context.user_data` dictionary, which every handler edits in place, key by key.
 * Each handler method is proved against the reply function of the same name in `Conversation`,
 * and `Chat.Handle` against `Conversation.Step`.
 */
module Chats {
  import opened Wrappers
  import opened Text
  import opened Enums
  import opened Conversation
  import S = States

  /** What a handler does when it finishes: return the next state, or raise. */
  datatype Answer = Next(next: Position) | Raise(error: HandlerError)

  /** The handler's answer, the user_data it leaves and the writes it requested are those of `r`. */
  predicate Answers(r: Reply, s: Session, a: Answer, effects: seq<Effect>) {
    match r
    case Returned(next, s1, e) => a == Next(next) && s == s1 && effects == e
    case Raised(err, s1, e) => a == Raise(err) && s == s1 && effects == e
  }

  class Chat {
    var position: Position
    var userData: Session

    /** Every chat the conversation produces satisfies the reachability invariant. */
    ghost predicate Valid()
      reads this
    {
      Inv(position, userData)
    }

    /** A chat that has never written: no conversation, empty user_data. */
    constructor ()
      ensures Valid()
      ensures position == Idle && userData == EmptySession
    {
      position := Idle;
      userData := EmptySession;
    }

    /** `start`: `context.user_data.clear()` and go to INFO. */
    method Start() returns (a: Answer)
      modifies this`userData
      ensures Answers(StartReply(old(userData)), userData, a, [])
    {
      userData := EmptySession;
      a := Next(At(S.Info));
    }

    /** `ask_phone`: note whether the store knows the user, then branch. */
    method AskPhone(env: Env) returns (a: Answer)
      modifies this`userData
      ensures Answers(AskPhoneReply(env, old(userData)), userData, a, [])
    {
      match env.profile {
        case Some(c) =>
          userData := userData.(clientId := Some(c.id));
          userData := userData.(clientExists := Some(true));
          userData := userData.(clientChanged := Some(false));
          // formatting the reuse question reads `client.apartment`
          if c.apartment.None? {
            a := Raise(MissingAttribute("apartment"));
            return;
          }
          a := Next(At(S.ReuseQuestion));
        case None =>
          userData := userData.(clientExists := Some(false));
          userData := userData.(clientChanged := Some(true));
          a := Next(At(S.GetPhone));
      }
    }

    /** `client_confirm_ok`: `context.user_data.update(...)` with the stored profile. */
    method ClientConfirmOk(env: Env) returns (a: Answer)
      modifies this`userData
      ensures Answers(ClientConfirmOkReply(env, old(userData)), userData, a, [])
    {
      if env.profile.None? {
        a := Raise(MissingAttribute("name"));
        return;
      }
      var c := env.profile.value;
      if c.apartment.None? {
        a := Raise(MissingAttribute("apartment"));
        return;
      }
      userData := userData.(name := Some(c.name), phone := Some(c.phone), street := Some(c.street),
                            house := Some(c.house), apartment := c.apartment, entrance := Some(c.entrance));
      a := Next(At(S.SelectServices));
    }

    method ClientConfirmEdit() returns (a: Answer)
      modifies this`userData
      ensures Answers(ClientConfirmEditReply(old(userData)), userData, a, [])
    {
      userData := userData.(clientChanged := Some(true));
      a := Next(At(S.GetPhone));
    }

    method GetPhone(phoneNumber: string) returns (a: Answer)
      modifies this`userData
      ensures Answers(GetPhoneReply(phoneNumber, old(userData)), userData, a, [])
    {
      userData := userData.(phone := Some(phoneNumber));
      userData := userData.(clientChanged := Some(true));
      a := Next(At(S.GetName));
    }

    method GetName(text: string) returns (a: Answer)
      modifies this`userData
      ensures Answers(GetNameReply(text, old(userData)), userData, a, [])
    {
      userData := userData.(name := Some(Strip(text)));
      a := Next(At(S.GetStreet));
    }

    /** `get_street`: `query.data.split('_')[1]` looked up in the street map. */
    method GetStreet(data: string) returns (a: Answer)
      modifies this`userData
      ensures Answers(GetStreetReply(data, old(userData)), userData, a, [])
    {
      var parts := Split(data, '_');
      if |parts| < 2 {
        a := Raise(IndexOutOfRange);
        return;
      }
      userData := userData.(street := Some(StreetFor(parts[1])));
      a := Next(At(S.GetHouse));
    }

    method GetHouse(text: string) returns (a: Answer)
      modifies this`userData
      ensures Answers(GetHouseReply(text, old(userData)), userData, a, [])
    {
      userData := userData.(house := Some(Strip(text)));
      a := Next(At(S.GetApartment));
    }

    method GetApartment(text: string) returns (a: Answer)
      modifies this`userData
      ensures Answers(GetApartmentReply(text, old(userData)), userData, a, [])
    {
      userData := userData.(apartment := Some(Strip(text)));
      a := Next(At(S.GetEntrance));
    }

    method GetEntrance(text: string) returns (a: Answer)
      modifies this`userData
      ensures Answers(GetEntranceReply(text, old(userData)), userData, a, [])
    {
      userData := userData.(entrance := Some(Strip(text)));
      a := Next(At(S.SelectServices));
    }

    /**
     * `select_services`: "Готово" reads the contact keys and stores the price text; a service
     * caption flips that service's flag in the selection dictionary and stores the dictionary.
     */
    method SelectServices(config: Config, text: string) returns (a: Answer)
      modifies this`userData
      ensures Answers(SelectServicesReply(config, text, old(userData)), userData, a, [])
    {
      var t := Strip(text);
      var services := SelectionOf(userData);
      if Contains(t, "Готово") {
        var missing := FirstMissing(userData, ContactKeys);
        if missing.Some? {
          a := Raise(MissingKey(missing.value));
          return;
        }
        userData := userData.(orderPrice := Some(TotalPriceMessage(services)));
        a := Next(At(S.Confirm));
        return;
      }
      if t in config.serviceNames {
        var slug := config.serviceNames[t];
        if slug !in services {
          a := Raise(MissingService(slug));
          return;
        }
        services := services[slug := !services[slug]];
        userData := userData.(services := Some(services));
      }
      a := Next(At(S.SelectServices));
    }

    /**
     * `payment_question`: create or update the client as the flags say, then create the order
     * from `context.user_data['services']` and remember its id.
     */
    method PaymentQuestion(env: Env) returns (a: Answer, effects: seq<Effect>)
      modifies this`userData
      ensures Answers(PaymentQuestionReply(env, old(userData)), userData, a, effects)
    {
      effects := [];
      if userData.clientExists.None? {
        a := Raise(MissingKey(ClientExists));
        return;
      }
      if !userData.clientExists.value {
        var fields := FieldsOf(env, userData);
        if fields.Failure? {
          a := Raise(fields.error);
          return;
        }
        effects := effects + [CreateClient(fields.value)];
      } else if userData.clientChanged.None? {
        a := Raise(MissingKey(ClientChanged));
        return;
      } else if userData.clientChanged.value {
        var fields := FieldsOf(env, userData);
        if fields.Failure? {
          a := Raise(fields.error);
          return;
        }
        effects := effects + [UpdateClient(fields.value)];
      }
      if userData.services.None? {
        a := Raise(MissingKey(Services));
        return;
      }
      effects := effects + [CreateOrder(env.telegramId, env.chatId, env.messageId, userData.services.value)];
      userData := userData.(orderId := Some(env.newOrderId));
      a := Next(At(S.PaymentQuestion));
    }

    method PaymentYes() returns (a: Answer, effects: seq<Effect>)
      modifies this`userData
      ensures Answers(PaymentYesReply(old(userData)), userData, a, effects)
    {
      effects := [];
      var missing := FirstMissing(userData, ContactKeys + [OrderPrice]);
      if missing.Some? {
        a := Raise(MissingKey(missing.value));
        return;
      }
      if userData.orderId.None? {
        a := Raise(MissingKey(OrderId));
        return;
      }
      effects := [UpdateOrderStatus(userData.orderId.value, New, Succeeded)];
      a := Next(Idle);
    }

    method PaymentNo() returns (a: Answer, effects: seq<Effect>)
      modifies this`userData
      ensures Answers(PaymentNoReply(old(userData)), userData, a, effects)
    {
      effects := [];
      if userData.orderId.None? {
        a := Raise(MissingKey(OrderId));
        return;
      }
      effects := [UpdateOrderStatus(userData.orderId.value, Canceled, PaymentCanceled)];
      a := Next(Idle);
    }

    /** Run the handler `h` on this chat's user_data. */
    method Dispatch(h: Handler, config: Config, env: Env, payload: string) returns (a: Answer, effects: seq<Effect>)
      modifies this`userData
      ensures Answers(Run(h, config, env, old(userData), payload), userData, a, effects)
    {
      effects := [];
      match h {
        case Start => a := Start();
        case AskPhone => a := AskPhone(env);
        case ClientConfirmOk => a := ClientConfirmOk(env);
        case ClientConfirmEdit => a := ClientConfirmEdit();
        case GetPhone => a := GetPhone(payload);
        case GetName => a := GetName(payload);
        case GetStreet => a := GetStreet(payload);
        case GetHouse => a := GetHouse(payload);
        case GetApartment => a := GetApartment(payload);
        case GetEntrance => a := GetEntrance(payload);
        case SelectServices => a := SelectServices(config, payload);
        case PaymentQuestion => a, effects := PaymentQuestion(env);
        case PaymentYes => a, effects := PaymentYes();
        case PaymentNo => a, effects := PaymentNo();
      }
    }

    /**
     * One update, as `ConversationHandler` delivers it: route it, run the handler, and move to
     * the state it returns; an unmatched update is dropped and a raising handler leaves the
     * state as it was. The chat stays reachable.
     */
    method Handle(config: Config, env: Env, i: Input) returns (effects: seq<Effect>, error: Option<HandlerError>)
      requires Valid()
      modifies this
      ensures Valid()
      ensures var o := Step(config, env, old(position), old(userData), i);
        position == o.next && userData == o.session && effects == o.effects && error == o.error
    {
      StepPreservesInv(config, env, position, userData, i);
      var h := Route(position, i);
      if h.None? {
        effects, error := [], None;
        return;
      }
      var a;
      a, effects := Dispatch(h.value, config, env, Payload(i));
      match a {
        case Next(next) =>
          position := next;
          error := None;
        case Raise(e) =>
          error := Some(e);
      }
    }
  }
}
