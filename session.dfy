/** Sequences of button presses on the cart page and in the chat, each handled to
    completion before the next; what they can and cannot do to the stored cart. */
module Session {
  import opened CartSpec
  import CartProperties
  import Chat

  /** A press of a cart-table button or of a chat answer's button. */
  datatype Event = CartButton(action: string, id: string) | ChatButton(action: string, id: string)

  function Step(r: Option<seq<Item>>, e: Event): (Status, Option<seq<Item>>)
  {
    match e
    case CartButton(action, id) => ClickRecord(r, action, id)
    case ChatButton(action, id) => Chat.ChatClickRecord(r, action, id)
  }

  /** The stored record after the events. A handler that throws has written nothing,
      and the next event is handled afresh. */
  function Run(r: Option<seq<Item>>, events: seq<Event>): Option<seq<Item>>
    decreases |events|
  {
    if events == [] then r else Run(Step(r, events[0]).1, events[1..])
  }

  lemma {:induction false} StepIdsWithin(r: Option<seq<Item>>, e: Event)
    ensures IdsWithin(Items(Step(r, e).1), Items(r))
  {
    match e
    case CartButton(action, id) => CartProperties.ClickIdsWithin(r, action, id);
    case ChatButton(action, id) => Chat.ChatClickIdsWithin(r, action, id);
  }

  /** No sequence of presses brings an id into the cart that was not already there. */
  lemma {:induction false} RunIdsWithin(r: Option<seq<Item>>, events: seq<Event>)
    ensures IdsWithin(Items(Run(r, events)), Items(r))
    decreases |events|
  {
    if events == [] {
      CartProperties.SelfIdsWithin(Items(r));
    } else {
      var next := Step(r, events[0]).1;
      StepIdsWithin(r, events[0]);
      RunIdsWithin(next, events[1..]);
      CartProperties.IdsWithinTrans(Items(Run(next, events[1..])), Items(next), Items(r));
    }
  }

  /** The consequence of the throwing new-item path: a cart that starts empty (absent
      or an empty list) stays empty whatever is pressed, on the cart page or in the
      chat. */
  lemma {:induction false} EmptyCartStaysEmpty(r: Option<seq<Item>>, events: seq<Event>)
    requires Items(r) == []
    ensures Items(Run(r, events)) == []
  {
    RunIdsWithin(r, events);
    var t := Items(Run(r, events));
    assert |t| > 0 ==> Contains(Items(r), t[0].id);
  }

  /** Positive quantities and unique ids hold after any sequence of presses. */
  lemma {:induction false} RunKeepsWellFormed(r: Option<seq<Item>>, events: seq<Event>)
    requires WellFormed(Items(r))
    ensures WellFormed(Items(Run(r, events)))
    decreases |events|
  {
    if events != [] {
      match events[0] {
        case CartButton(action, id) => CartProperties.ClickKeepsWellFormed(r, action, id);
        case ChatButton(action, id) => Chat.ChatClickKeepsWellFormed(r, action, id);
      }
      RunKeepsWellFormed(Step(r, events[0]).1, events[1..]);
    }
  }

  /** An absent record and a stored list with the same items cannot be told apart by
      any sequence of presses: both end with the same items. */
  lemma {:induction false} RunRespectsItems(r1: Option<seq<Item>>, r2: Option<seq<Item>>, events: seq<Event>)
    requires Items(r1) == Items(r2)
    ensures Items(Run(r1, events)) == Items(Run(r2, events))
    decreases |events|
  {
    if events != [] {
      match events[0] {
        case CartButton(action, id) => CartProperties.ClickRespectsItems(r1, r2, action, id);
        case ChatButton(action, id) => Chat.ChatClickRespectsItems(r1, r2, action, id);
      }
      RunRespectsItems(Step(r1, events[0]).1, Step(r2, events[0]).1, events[1..]);
    }
  }
}
