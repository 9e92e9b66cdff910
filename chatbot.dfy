/** The chat panel (src/components/AI/Chatbot.tsx): the keyword matcher that picks the bot's
    reply, and `handleSend`, which posts the user's message and clears the input. */
module Chatbot {
  import opened Js
  import opened Text
  import opened ChatbotSlice

  const DeliveryReply := "I can help you track deliveries, schedule new shipments, or provide delivery status updates. What specific information do you need about your deliveries?"
  const FleetReply := "I can provide information about your fleet status, vehicle locations, maintenance schedules, and fuel consumption. Which vehicles would you like to know about?"
  const RouteReply := "I can help optimize routes, provide traffic updates, and suggest alternative paths. Would you like me to analyze your current routes or plan new ones?"
  const DriverReply := "I can provide driver performance metrics, schedule information, and safety alerts. What driver information are you looking for?"
  const FuelReply := "I can analyze fuel consumption patterns, identify efficiency opportunities, and detect potential fraud. Would you like a fuel usage report?"
  const MaintenanceReply := "I can predict maintenance needs, schedule service appointments, and track repair history. Which vehicles need maintenance attention?"
  const GeneralReply := "I'm your AI assistant for fleet management. I can help with deliveries, vehicle tracking, route optimization, driver management, fuel monitoring, and maintenance scheduling. What would you like to know?"

  /** Every reply the bot can give. */
  const Replies: seq<string> := [DeliveryReply, FleetReply, RouteReply, DriverReply, FuelReply, MaintenanceReply, GeneralReply]

  /** A category of the matcher: its keywords and its reply. */
  datatype Category = Category(keywords: seq<string>, reply: string)

  /** The categories in the order the matcher tries them. */
  const Categories: seq<Category> := [
    Category(["delivery", "shipment"], DeliveryReply),
    Category(["vehicle", "truck", "fleet"], FleetReply),
    Category(["route", "navigation"], RouteReply),
    Category(["driver", "staff"], DriverReply),
    Category(["fuel", "consumption"], FuelReply),
    Category(["maintenance", "repair"], MaintenanceReply)
  ]

  /** The message (already lower-cased) contains one of the keywords. */
  predicate Mentions(lower: string, keywords: seq<string>)
  {
    exists k :: 0 <= k < |keywords| && Includes(lower, keywords[k])
  }

  /** Reference matcher: the reply of the first category the message mentions, or the fallback. */
  function FirstMatch(categories: seq<Category>, lower: string): string
  {
    if categories == [] then GeneralReply
    else if Mentions(lower, categories[0].keywords) then categories[0].reply
    else FirstMatch(categories[1..], lower)
  }

  /** The keyword tests of `getBotResponse`, run in order on the lower-cased message. */
  function ReplyFor(lower: string): (r: string)
    ensures r in Replies
  {
    if Includes(lower, "delivery") || Includes(lower, "shipment") then DeliveryReply
    else if Includes(lower, "vehicle") || Includes(lower, "truck") || Includes(lower, "fleet") then FleetReply
    else if Includes(lower, "route") || Includes(lower, "navigation") then RouteReply
    else if Includes(lower, "driver") || Includes(lower, "staff") then DriverReply
    else if Includes(lower, "fuel") || Includes(lower, "consumption") then FuelReply
    else if Includes(lower, "maintenance") || Includes(lower, "repair") then MaintenanceReply
    else GeneralReply
  }

  /** `getBotResponse`: the message is lower-cased, then the keyword tests run. */
  function BotResponse(message: string): (r: string)
    ensures r in Replies
  {
    ReplyFor(Lower(message))
  }

  lemma MentionsTwo(lower: string, a: string, b: string)
    ensures Mentions(lower, [a, b]) <==> Includes(lower, a) || Includes(lower, b)
  {
    if Includes(lower, a) {
      assert [a, b][0] == a;
    } else if Includes(lower, b) {
      assert [a, b][1] == b;
    }
  }

  lemma MentionsThree(lower: string, a: string, b: string, c: string)
    ensures Mentions(lower, [a, b, c]) <==> Includes(lower, a) || Includes(lower, b) || Includes(lower, c)
  {
    if Includes(lower, a) {
      assert [a, b, c][0] == a;
    } else if Includes(lower, b) {
      assert [a, b, c][1] == b;
    } else if Includes(lower, c) {
      assert [a, b, c][2] == c;
    }
  }

  /** The chain of `if`s is the table-driven matcher over the category list. */
  lemma BotResponseIsFirstMatch(message: string)
    ensures BotResponse(message) == FirstMatch(Categories, Lower(message))
  {
    ReplyForIsFirstMatch(Lower(message));
  }

  /** The keyword tests on an already lower-cased message, against the category table. */
  lemma ReplyForIsFirstMatch(lower: string)
    ensures ReplyFor(lower) == FirstMatch(Categories, lower)
  {
    var c1 := Categories[1..];
    var c2 := c1[1..];
    var c3 := c2[1..];
    var c4 := c3[1..];
    var c5 := c4[1..];
    assert c5[1..] == [];
    FirstMatchTwo(Categories, lower, "delivery", "shipment");
    FirstMatchThree(c1, lower, "vehicle", "truck", "fleet");
    FirstMatchTwo(c2, lower, "route", "navigation");
    FirstMatchTwo(c3, lower, "driver", "staff");
    FirstMatchTwo(c4, lower, "fuel", "consumption");
    FirstMatchTwo(c5, lower, "maintenance", "repair");
  }

  /** One step of the matcher over a two-keyword category. */
  lemma FirstMatchTwo(categories: seq<Category>, lower: string, a: string, b: string)
    requires categories != [] && categories[0].keywords == [a, b]
    ensures FirstMatch(categories, lower) ==
            if Includes(lower, a) || Includes(lower, b) then categories[0].reply else FirstMatch(categories[1..], lower)
  {
    MentionsTwo(lower, a, b);
  }

  /** One step of the matcher over a three-keyword category. */
  lemma FirstMatchThree(categories: seq<Category>, lower: string, a: string, b: string, c: string)
    requires categories != [] && categories[0].keywords == [a, b, c]
    ensures FirstMatch(categories, lower) ==
            if Includes(lower, a) || Includes(lower, b) || Includes(lower, c) then categories[0].reply
            else FirstMatch(categories[1..], lower)
  {
    MentionsThree(lower, a, b, c);
  }

  /** The first category the message mentions decides the reply, whatever later categories it
      also mentions. */
  lemma {:induction false} FirstMatchFirstHitWins(categories: seq<Category>, lower: string, k: nat)
    requires k < |categories| && Mentions(lower, categories[k].keywords)
    requires forall j :: 0 <= j < k ==> !Mentions(lower, categories[j].keywords)
    ensures FirstMatch(categories, lower) == categories[k].reply
  {
    if k > 0 {
      assert !Mentions(lower, categories[0].keywords);
      FirstMatchFirstHitWins(categories[1..], lower, k - 1);
    }
  }

  /** A message mentioning no keyword of any category gets the general reply, and with no category
      using the general reply, only such a message gets it. */
  lemma {:induction false} FirstMatchFallback(categories: seq<Category>, lower: string)
    requires forall j :: 0 <= j < |categories| ==> categories[j].reply != GeneralReply
    ensures FirstMatch(categories, lower) == GeneralReply <==>
            forall j :: 0 <= j < |categories| ==> !Mentions(lower, categories[j].keywords)
  {
    if categories != [] {
      FirstMatchFallback(categories[1..], lower);
      assert forall j :: 1 <= j < |categories| ==> categories[j] == categories[1..][j - 1];
    }
  }

  /** The general reply comes exactly for the messages that contain none of the keywords. */
  lemma FallbackIffNoKeyword(message: string)
    ensures BotResponse(message) == GeneralReply <==>
            forall j :: 0 <= j < |Categories| ==> !Mentions(Lower(message), Categories[j].keywords)
  {
    BotResponseIsFirstMatch(message);
    FirstMatchFallback(Categories, Lower(message));
  }

  /** "Which fuel truck?" gets the fleet reply: the fleet category is tried before the fuel one. */
  lemma FleetBeforeFuel(message: string)
    requires Includes(Lower(message), "truck")
    requires !Includes(Lower(message), "delivery") && !Includes(Lower(message), "shipment")
    ensures BotResponse(message) == FleetReply
  {
  }

  /** The reply does not depend on the case of the message. */
  lemma BotResponseIgnoresCase(message: string)
    ensures BotResponse(message) == BotResponse(Lower(message))
  {
    LowerIdempotent(message);
    assert BotResponse(Lower(message)) == ReplyFor(Lower(Lower(message)));
  }

  /** The component's `input` cell, over the chatbot slice it dispatches to. */
  class ChatPanel {
    var input: string
    const store: ChatbotStore

    constructor (store: ChatbotStore)
      ensures this.store == store && input == ""
    {
      this.store := store;
      input := "";
    }

    /** The Send button's `disabled={!input.trim()}`. */
    predicate SendDisabled()
      reads this
    {
      Trim(input) == ""
    }

    /** `handleSend`. A blank input does nothing. Otherwise the input, untrimmed, is posted as one
        user message and then cleared; the result is the bot reply the timer will post, computed
        from the input as it was before clearing. The message id and timestamp come from the clock
        and are parameters here. */
    method HandleSend(id: string, timestamp: string) returns (botReply: Option<string>)
      modifies this`input, store`messages
      ensures IsBlank(old(input)) ==> input == old(input) && store.messages == old(store.messages) && botReply == None
      ensures !IsBlank(old(input)) ==>
                input == "" &&
                store.messages == old(store.messages) + [ChatMessage(id, old(input), "user", timestamp, "text")] &&
                botReply == Some(BotResponse(old(input)))
    {
      TrimEmptyIffBlank(input);
      if Trim(input) == "" {
        return None;
      }
      var userMessage := ChatMessage(id, input, "user", timestamp, "text");
      store.AddMessage(userMessage);
      var sent := input;
      input := "";
      botReply := Some(BotResponse(sent));
    }

    /** The button is disabled exactly when pressing it would do nothing. */
    lemma SendDisabledIffBlank()
      ensures SendDisabled() <==> IsBlank(input)
    {
      TrimEmptyIffBlank(input);
    }
  }
}
