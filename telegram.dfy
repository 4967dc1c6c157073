/**
 * The order notification (src/lib/telegram.ts): the message text sent for a
 * new order, the credential lookup, and the send and connection-test
 * outcomes.  The network call is replaced by its reply, given as input.
 */
module Telegram {
  import opened Wrappers
  import Strings
  import Lists

  datatype TelegramLine = TelegramLine(name: string, quantity: int, price: string)

  datatype TelegramOrder = TelegramOrder(
    customerName: string, customerPhone: string, customerAddress: string,
    items: seq<TelegramLine>, totalPrice: int, orderDate: string)

  /** Resolved credentials: the bot token and the destination chat. */
  datatype Settings = Settings(botToken: string, chatId: string)

  /** The parsed `telegramSettings` entry; either field may be missing. */
  datatype SavedSettings = SavedSettings(botToken: Option<string>, chatId: Option<string>)

  /** What the `fetch` call produced: a thrown network error, or a response with its HTTP `ok` and the body's `ok` flag (None when absent or unparsable). */
  datatype Reply = NetworkFailure | Response(httpOk: bool, bodyOk: Option<bool>)

  /** The POST `sendOrder` issues. */
  datatype Request = Request(url: string, chatId: string, text: string, parseMode: string)

  // ---------------------------------------------------------------------------
  // Settings
  // ---------------------------------------------------------------------------

  /** `TELEGRAM_CONFIG`: each build-time variable, or "" when it is unset. */
  function BuildConfig(envToken: Option<string>, envChat: Option<string>): (c: Settings)
    ensures c.botToken == envToken.GetOr("") && c.chatId == envChat.GetOr("")
  {
    Settings(Strings.Fallback(envToken, ""), Strings.Fallback(envChat, ""))
  }

  /** `getTelegramSettings`: the saved entry's fields over the build-time defaults, one field at a time. */
  function GetTelegramSettings(saved: Option<SavedSettings>, config: Settings): (s: Settings)
    ensures saved.None? ==> s == config
    ensures saved.Some? ==> s.botToken == Strings.Fallback(saved.value.botToken, config.botToken)
    ensures saved.Some? ==> s.chatId == Strings.Fallback(saved.value.chatId, config.chatId)
  {
    if saved.Some? then
      Settings(Strings.Fallback(saved.value.botToken, config.botToken), Strings.Fallback(saved.value.chatId, config.chatId))
    else config
  }

  /** Each resolved field depends on its own saved value and default only. */
  lemma SettingsFieldsIndependent(t: Option<string>, c1: Option<string>, c2: Option<string>, config: Settings)
    ensures GetTelegramSettings(Some(SavedSettings(t, c1)), config).botToken
         == GetTelegramSettings(Some(SavedSettings(t, c2)), config).botToken
    ensures GetTelegramSettings(Some(SavedSettings(c1, t)), config).chatId
         == GetTelegramSettings(Some(SavedSettings(c2, t)), config).chatId
  {
  }

  /** Both credentials are non-empty: the guard `sendOrder` applies before any request. */
  predicate Complete(s: Settings)
  {
    s.botToken != "" && s.chatId != ""
  }

  /** A resolved credential is empty exactly when neither the saved entry nor the default supplies one. */
  lemma CompleteSettings(saved: Option<SavedSettings>, config: Settings)
    ensures var s := GetTelegramSettings(saved, config);
            Complete(s) <==>
              && (config.botToken != "" || (saved.Some? && saved.value.botToken.Some? && saved.value.botToken.value != ""))
              && (config.chatId != "" || (saved.Some? && saved.value.chatId.Some? && saved.value.chatId.value != ""))
  {
  }

  function SendMessageUrl(token: string): string
  {
    "https://api.telegram.org/bot" + token + "/sendMessage"
  }

  function GetMeUrl(token: string): string
  {
    "https://api.telegram.org/bot" + token + "/getMe"
  }

  // ---------------------------------------------------------------------------
  // The message
  // ---------------------------------------------------------------------------

  const Header: string := "\U{1F6D2} <b>طلب جديد من مطعم أكل ونوم واستكشف</b>"
  const NameLabel: string := "\U{1F464} <b>العميل:</b> "
  const PhoneLabel: string := "\U{1F4DE} <b>الهاتف:</b> "
  const AddressLabel: string := "\U{1F4CD} <b>العنوان:</b> "
  const ItemsLabel: string := "\U{1F37D}\U{FE0F} <b>الطلبات:</b>"
  const TotalLabel: string := "\U{1F4B0} <b>المجموع:</b> "
  const Currency: string := " جنيه مصري"
  const DateLabel: string := "⏰ <b>وقت الطلب:</b> "

  /** `• name × quantity = price`. */
  function ItemLine(item: TelegramLine): (line: string)
    ensures |line| > 0 && line[0] == '\U{2022}'
    ensures Strings.Contains(line, item.name) && Strings.Contains(line, item.price)
  {
    var head := "\U{2022} ";
    var middle := " \U{00D7} " + Strings.IntToString(item.quantity) + " = ";
    var line := "\U{2022} " + item.name + " \U{00D7} " + Strings.IntToString(item.quantity) + " = " + item.price;
    assert line == head + item.name + (middle + item.price);
    Strings.ContainsMiddle(head, item.name, middle + item.price);
    Strings.ContainsSelf(item.price);
    Strings.ContainsInRight(head + item.name + middle, item.price, item.price);
    assert line == head + item.name + middle + item.price;
    line
  }

  function ItemLines(items: seq<TelegramLine>): (r: seq<string>)
    ensures |r| == |items|
    ensures forall i :: 0 <= i < |items| ==> r[i] == ItemLine(items[i])
  {
    Lists.Map(items, ItemLine)
  }

  /** The item lines joined by line breaks. */
  function ItemsText(items: seq<TelegramLine>): string
  {
    Strings.Join(ItemLines(items), "\n")
  }

  /** The pieces of the message between its first and last line break, in template order. */
  function BodyParts(o: TelegramOrder): seq<string>
  {
    [ Header + "\n\n" + NameLabel, o.customerName,
      "\n" + PhoneLabel, o.customerPhone,
      "\n" + AddressLabel, o.customerAddress,
      "\n\n" + ItemsLabel + "\n", ItemsText(o.items),
      "\n\n" + TotalLabel, Strings.IntToString(o.totalPrice) + Currency,
      "\n\n" + DateLabel, o.orderDate ]
  }

  function Body(o: TelegramOrder): string
  {
    Strings.Concat(BodyParts(o))
  }

  /** `formatOrderMessage`: the template literal, trimmed at both ends. */
  function FormatOrderMessage(o: TelegramOrder): (m: string)
    ensures m != [] ==> !Strings.IsWhitespace(m[0]) && !Strings.IsWhitespace(m[|m| - 1])
  {
    Strings.Trim("\n" + Body(o) + "\n    ")
  }

  /** With an order date that ends in a visible character, trimming removes exactly the template's outer line breaks and indentation. */
  lemma MessageIsBody(o: TelegramOrder)
    requires o.orderDate != [] && !Strings.IsWhitespace(o.orderDate[|o.orderDate| - 1])
    ensures FormatOrderMessage(o) == Body(o)
  {
    var parts := BodyParts(o);
    assert parts[0][0] == Header[0];
    Strings.ConcatFirst(parts);
    Strings.ConcatLast(parts);
    Strings.TrimSurrounded("\n", Body(o), "\n    ");
  }

  /** The body holds every value the template interpolates. */
  lemma BodyContents(o: TelegramOrder)
    ensures var b := Body(o);
            && Strings.Contains(b, o.customerName)
            && Strings.Contains(b, o.customerPhone)
            && Strings.Contains(b, o.customerAddress)
            && Strings.Contains(b, ItemsText(o.items))
            && Strings.Contains(b, Strings.IntToString(o.totalPrice) + Currency)
            && Strings.Contains(b, o.orderDate)
  {
    var parts := BodyParts(o);
    assert parts[1] == o.customerName && parts[3] == o.customerPhone && parts[5] == o.customerAddress;
    assert parts[7] == ItemsText(o.items) && parts[11] == o.orderDate;
    assert parts[9] == Strings.IntToString(o.totalPrice) + Currency;
    Strings.ConcatContains(parts, 1);
    Strings.ConcatContains(parts, 3);
    Strings.ConcatContains(parts, 5);
    Strings.ConcatContains(parts, 7);
    Strings.ConcatContains(parts, 9);
    Strings.ConcatContains(parts, 11);
  }

  /** The message names the customer, the phone, the address, the item lines, the total in pounds and the order date. */
  lemma MessageContents(o: TelegramOrder)
    requires o.orderDate != [] && !Strings.IsWhitespace(o.orderDate[|o.orderDate| - 1])
    ensures var m := FormatOrderMessage(o);
            && Strings.Contains(m, o.customerName)
            && Strings.Contains(m, o.customerPhone)
            && Strings.Contains(m, o.customerAddress)
            && Strings.Contains(m, ItemsText(o.items))
            && Strings.Contains(m, Strings.IntToString(o.totalPrice) + Currency)
            && Strings.Contains(m, o.orderDate)
  {
    MessageIsBody(o);
    BodyContents(o);
  }

  /** An empty order has no item lines. */
  lemma ItemsTextEmpty()
    ensures ItemsText([]) == ""
  {
  }

  lemma LineHasNoBreak(item: TelegramLine)
    requires '\n' !in item.name && '\n' !in item.price
    ensures '\n' !in ItemLine(item)
  {
    var q := Strings.IntToString(item.quantity);
    assert '\n' !in q;
  }

  /** Splitting the item text at its line breaks gives one line per item, in item order. */
  lemma ItemsTextLines(items: seq<TelegramLine>)
    requires |items| >= 1
    requires forall i :: 0 <= i < |items| ==> '\n' !in items[i].name && '\n' !in items[i].price
    ensures Strings.Split(ItemsText(items), '\n') == ItemLines(items)
  {
    var lines := ItemLines(items);
    forall i | 0 <= i < |lines| ensures '\n' !in lines[i] {
      LineHasNoBreak(items[i]);
    }
    Strings.SplitJoin(lines, '\n');
  }

  // ---------------------------------------------------------------------------
  // The service
  // ---------------------------------------------------------------------------

  /** The send succeeds only with both credentials, an HTTP success status and a body whose `ok` flag is true. */
  predicate SendSucceeds(s: Settings, reply: Reply)
  {
    Complete(s) && reply == Response(true, Some(true))
  }

  /**
   * The service object.  Its fields are the credentials read when the module
   * was loaded; `SendOrder` reads the settings afresh, `TestConnection` uses
   * the fields.
   */
  class TelegramService {
    var botToken: string
    var chatId: string

    constructor (botToken: string, chatId: string)
      ensures this.botToken == botToken && this.chatId == chatId
    {
      this.botToken := botToken;
      this.chatId := chatId;
    }

    /**
     * `sendOrder`: read the settings, give up before any request if a
     * credential is empty, otherwise post the formatted message; every failure
     * is reported as false.
     */
    method SendOrder(order: TelegramOrder, saved: Option<SavedSettings>, config: Settings, reply: Reply)
      returns (ok: bool, request: Option<Request>)
      ensures var s := GetTelegramSettings(saved, config);
              && (request.None? <==> !Complete(s))
              && (request.Some? ==> request.value == Request(SendMessageUrl(s.botToken), s.chatId, FormatOrderMessage(order), "HTML"))
              && (ok <==> SendSucceeds(s, reply))
    {
      var settings := GetTelegramSettings(saved, config);
      if settings.botToken == "" || settings.chatId == "" {
        return false, None;
      }
      var message := FormatOrderMessage(order);
      request := Some(Request(SendMessageUrl(settings.botToken), settings.chatId, message, "HTML"));
      match reply
      case NetworkFailure =>
        ok := false;
      case Response(httpOk, bodyOk) =>
        if !httpOk {
          ok := false;
        } else {
          ok := bodyOk == Some(true);
        }
    }

    /** `testConnection`: a `getMe` call with the stored token, true only on an HTTP success with a true `ok` flag. */
    method TestConnection(reply: Reply) returns (ok: bool, url: string)
      ensures url == GetMeUrl(botToken)
      ensures ok <==> reply == Response(true, Some(true))
    {
      url := GetMeUrl(botToken);
      match reply
      case NetworkFailure =>
        ok := false;
      case Response(httpOk, bodyOk) =>
        ok := httpOk && bodyOk == Some(true);
    }
  }
}
