/** The chat widget of features/home.js: the "NNN / MAX" character counter under the
    chat input, and the action buttons of product answers, whose "cart-add" button
    feeds the cart store. */
module Chat {
  import opened CartSpec
  import CartProperties
  import Cart

  predicate IsDigit(c: char)
  {
    '0' <= c <= '9'
  }

  predicate AllDigits(s: string)
  {
    forall k :: 0 <= k < |s| ==> IsDigit(s[k])
  }

  function DigitChar(d: nat): char
    requires d < 10
  {
    ('0' as int + d) as char
  }

  function DigitValue(c: char): nat
    requires IsDigit(c)
  {
    c as int - '0' as int
  }

  /** `String(n)` for a non-negative integer: its decimal digits, most significant
      first, without leading zeros. */
  function DecimalString(n: nat): string
  {
    if n < 10 then [DigitChar(n)] else DecimalString(n / 10) + [DigitChar(n % 10)]
  }

  /** The number a string of decimal digits denotes (leading zeros allowed). */
  function ParseDecimal(s: string): nat
    requires AllDigits(s)
  {
    if s == [] then 0 else 10 * ParseDecimal(s[..|s| - 1]) + DigitValue(s[|s| - 1])
  }

  function Zeros(k: nat): string
  {
    seq(k, _ => '0')
  }

  /** `s.padStart(width, fill)` for a one-character `fill`: unchanged when already
      `width` long or longer, otherwise filled on the left up to `width`. */
  function PadStart(s: string, width: nat, fill: char): string
  {
    if |s| >= width then s else seq(width - |s|, _ => fill) + s
  }

  /** The text `loadChatCounter` writes for an input holding `length` characters
      whose `maxLength` is `maxLength`. */
  function ChatCounterText(length: nat, maxLength: nat): (t: string)
    ensures var m := DecimalString(maxLength);
      |t| >= 2 * |m| + 3 && t[|t| - |m| - 3..] == " / " + m
  {
    var m := DecimalString(maxLength);
    var field := PadStart(DecimalString(length), |m|, '0');
    assert (field + " / " + m)[|field|..] == " / " + m;
    field + " / " + m
  }

  lemma {:induction false} DecimalRoundTrip(n: nat)
    ensures |DecimalString(n)| >= 1 && AllDigits(DecimalString(n))
    ensures n > 0 ==> DecimalString(n)[0] != '0'
    ensures ParseDecimal(DecimalString(n)) == n
  {
    if n >= 10 {
      DecimalRoundTrip(n / 10);
      var s := DecimalString(n);
      assert s[..|s| - 1] == DecimalString(n / 10);
    }
  }

  lemma {:induction false} ParseZeros(k: nat)
    ensures AllDigits(Zeros(k)) && ParseDecimal(Zeros(k)) == 0
  {
    if k > 0 {
      assert Zeros(k)[..k - 1] == Zeros(k - 1);
      ParseZeros(k - 1);
    }
  }

  /** Leading zeros do not change the number a digit string denotes. */
  lemma {:induction false} ParseLeadingZeros(k: nat, s: string)
    requires AllDigits(s)
    ensures AllDigits(Zeros(k) + s)
    ensures ParseDecimal(Zeros(k) + s) == ParseDecimal(s)
    decreases |s|
  {
    ParseZeros(k);
    if s == [] {
      assert Zeros(k) + s == Zeros(k);
    } else {
      var z := Zeros(k) + s;
      assert z[..|z| - 1] == Zeros(k) + s[..|s| - 1];
      ParseLeadingZeros(k, s[..|s| - 1]);
    }
  }

  /** The counter is the length field, then " / ", then `maxLength` in decimal. The
      field is as wide as the wider of the two numbers and consists of leading
      '0's followed by the decimal of the length. */
  lemma {:induction false} ChatCounterLayout(length: nat, maxLength: nat)
    ensures var d, m := DecimalString(length), DecimalString(maxLength);
      var w := if |d| >= |m| then |d| else |m|;
      var t := ChatCounterText(length, maxLength);
      |t| == w + 3 + |m| &&
      t[..w] == Zeros(w - |d|) + d &&
      t[w..] == " / " + m
  {
    var d, m := DecimalString(length), DecimalString(maxLength);
    var w := if |d| >= |m| then |d| else |m|;
    var field := PadStart(d, |m|, '0');
    assert field == Zeros(w - |d|) + d;
    var t := ChatCounterText(length, maxLength);
    assert t == field + (" / " + m);
  }

  lemma {:induction false} SplitField(t: string, d: string, m: string, w: nat)
    requires AllDigits(d) && |d| <= w
    requires |t| == w + 3 + |m| && t[..w] == Zeros(w - |d|) + d && t[w..] == " / " + m
    ensures AllDigits(t[..w]) && ParseDecimal(t[..w]) == ParseDecimal(d)
    ensures t[w..w + 3] == " / " && t[w + 3..] == m
  {
    ParseLeadingZeros(w - |d|, d);
    assert t[w + 3..] == t[w..][3..];
    assert t[w..w + 3] == t[w..][..3];
  }

  /** Reading the counter back: the field before " / " is all digits and denotes the
      input length, and what follows " / " denotes `maxLength`. */
  lemma {:induction false} ChatCounterReadBack(length: nat, maxLength: nat)
    ensures var d, m := DecimalString(length), DecimalString(maxLength);
      var w := if |d| >= |m| then |d| else |m|;
      var t := ChatCounterText(length, maxLength);
      AllDigits(t[..w]) && ParseDecimal(t[..w]) == length &&
      t[w..w + 3] == " / " &&
      AllDigits(t[w + 3..]) && ParseDecimal(t[w + 3..]) == maxLength
  {
    var d, m := DecimalString(length), DecimalString(maxLength);
    var w := if |d| >= |m| then |d| else |m|;
    var t := ChatCounterText(length, maxLength);
    ChatCounterLayout(length, maxLength);
    DecimalRoundTrip(length);
    DecimalRoundTrip(maxLength);
    SplitField(t, d, m, w);
  }

  /** After `clearChatInput` the field is all zeros, as wide as `maxLength`. */
  lemma {:induction false} ClearedChatCounter(maxLength: nat)
    ensures ChatCounterText(0, maxLength)
      == Zeros(|DecimalString(maxLength)|) + " / " + DecimalString(maxLength)
  {
    var m := DecimalString(maxLength);
    DecimalRoundTrip(maxLength);
    ChatCounterLayout(0, maxLength);
    assert Zeros(|m| - 1) + "0" == Zeros(|m|);
    var t := ChatCounterText(0, maxLength);
    assert t == t[..|m|] + t[|m|..];
  }

  /** The example display of the doc comment, and the same counter once cleared. */
  lemma {:induction false} ChatCounterExamples()
    ensures ChatCounterText(5, 100) == "005 / 100"
    ensures ChatCounterText(0, 100) == "000 / 100"
  {
    assert DecimalString(100) == DecimalString(10) + "0" == DecimalString(1) + "0" + "0" == "100";
    assert DecimalString(5) == "5" && DecimalString(0) == "0";
  }

  /** The chat input and the counter element beside it. */
  class ChatWidget {
    /** The text in the chat input. */
    var value: string
    /** The input's `maxLength` attribute. */
    const maxLength: nat
    /** The text of the chat-counter element. */
    var counterText: string

    constructor (initial: string, limit: nat)
      ensures value == initial && maxLength == limit
      ensures counterText == ChatCounterText(|initial|, limit)
    {
      value, maxLength, counterText := initial, limit, "";
      new;
      LoadChatCounter();
    }

    /** `loadChatCounter`: the counter shows the padded input length over `maxLength`. */
    method LoadChatCounter()
      modifies this`counterText
      ensures counterText == ChatCounterText(|value|, maxLength)
    {
      var field := PadStart(DecimalString(|value|), |DecimalString(maxLength)|, '0');
      counterText := field + " / " + DecimalString(maxLength);
    }

    /** `changeChatInput`, once the browser has replaced the input's text by `typed`. */
    method ChangeChatInput(typed: string)
      modifies this`value, this`counterText
      ensures value == typed
      ensures counterText == ChatCounterText(|typed|, maxLength)
    {
      value := typed;
      LoadChatCounter();
    }

    /** `clearChatInput`: the input is emptied and the counter shows a zero length. */
    method ClearChatInput()
      modifies this`value, this`counterText
      ensures value == ""
      ensures counterText == ChatCounterText(0, maxLength)
    {
      value := "";
      LoadChatCounter();
    }
  }

  /** `clickChatAction`'s effect on the stored cart: only "cart-add" reaches the
      cart, as `addToCart(id, 1)`; "navigate", "share" and anything else leave it. */
  function ChatClickRecord(r: Option<seq<Item>>, action: string, id: string): (res: (Status, Option<seq<Item>>))
    ensures res.0 == TypeError <==> action == "cart-add" && !Contains(Items(r), id)
    ensures res.0 == TypeError || action != "cart-add" ==> res.1 == r
  {
    if action == "cart-add" then AddRecord(r, id, 1) else (Completed, r)
  }

  /** A chat answer's button keeps quantities positive and ids unique. */
  lemma {:induction false} ChatClickKeepsWellFormed(r: Option<seq<Item>>, action: string, id: string)
    requires WellFormed(Items(r))
    ensures WellFormed(Items(ChatClickRecord(r, action, id).1))
  {
    CartProperties.AddKeepsWellFormed(r, id, 1);
  }

  /** A chat answer's button brings no id into the cart that was not there. */
  lemma {:induction false} ChatClickIdsWithin(r: Option<seq<Item>>, action: string, id: string)
    ensures IdsWithin(Items(ChatClickRecord(r, action, id).1), Items(r))
  {
    CartProperties.AddIdsWithin(r, id, 1);
    CartProperties.SelfIdsWithin(Items(r));
  }

  /** An absent record and a stored list with the same items give the same status
      and the same items after a chat answer's button. */
  lemma {:induction false} ChatClickRespectsItems(r1: Option<seq<Item>>, r2: Option<seq<Item>>, action: string, id: string)
    requires Items(r1) == Items(r2)
    ensures ChatClickRecord(r1, action, id).0 == ChatClickRecord(r2, action, id).0
    ensures Items(ChatClickRecord(r1, action, id).1) == Items(ChatClickRecord(r2, action, id).1)
  {
  }

  /** `clickChatAction` for a button of a chat answer, given the cart store it adds
      to. Navigation and sharing are not part of this model and do not touch the cart. */
  method ClickChatAction(action: string, id: string, cart: Cart.CartStore) returns (status: Status)
    modifies cart`stored, cart`counter
    ensures (status, cart.stored) == ChatClickRecord(old(cart.stored), action, id)
    ensures action == "cart-add" && status == Completed ==> cart.counter == Counter(cart.stored)
    ensures action != "cart-add" || status == TypeError ==> cart.counter == old(cart.counter)
    ensures old(cart.Valid()) ==> cart.Valid()
  {
    if action == "cart-add" {
      status := cart.AddToCart(id, 1);
    } else {
      status := Completed;
    }
  }
}
