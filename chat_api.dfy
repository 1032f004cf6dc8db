/**
 * The chat endpoint: a first-match-wins FAQ keyword scan and the handler that resolves a
 * request to an HTTP response, either from the FAQ, from a fixed help text, or from a
 * language-model provider that is passed in as a function.
 */
module ChatApi {
  import opened Wrappers
  import opened JsBuiltins

  // ---------------------------------------------------------------------------
  // Messages and canned texts
  // ---------------------------------------------------------------------------

  datatype Role = User | Assistant

  /** A history entry already reduced to its role and content. */
  datatype ChatMessage = ChatMessage(role: Role, content: string)

  datatype Topic =
    | Pricing | Sizes | Climate | Security | Access
    | Insurance | Reservation | Moving | Payment | Cancellation

  /**
   * The text in a reply. The canned answers are identified, not spelled out: one answer
   * per FAQ topic, the multi-topic help text, and the connection apology.
   */
  datatype Text = FaqAnswer(topic: Topic) | HelpText | ApologyText | Generated(text: string)

  // ---------------------------------------------------------------------------
  // The FAQ table
  // ---------------------------------------------------------------------------

  /** One topic with its trigger keywords, in declaration order. */
  datatype FaqEntry = FaqEntry(topic: Topic, keywords: seq<string>)

  // The keyword lists of `FAQ_KEYWORDS`, one per topic.
  const PricingKeywords: seq<string> := ["price", "cost", "how much", "expensive", "cheap", "affordable", "rate", "monthly", "pricing", "pay"]
  const SizesKeywords: seq<string> := ["size", "dimension", "big", "small", "large", "fit", "hold", "space", "square feet", "sq ft", "5x5", "10x10", "10x20"]
  const ClimateKeywords: seq<string> := ["climate", "temperature", "heat", "cold", "humidity", "controlled", "air condition", "ac"]
  const SecurityKeywords: seq<string> := ["security", "safe", "secure", "camera", "surveillance", "alarm", "theft", "break in"]
  const AccessKeywords: seq<string> := ["access", "hours", "open", "close", "24 hour", "weekend", "time", "when can i"]
  const InsuranceKeywords: seq<string> := ["insurance", "coverage", "protect", "damage", "liability", "insure"]
  const ReservationKeywords: seq<string> := ["reserve", "book", "rent", "how do i", "get started", "sign up", "reservation"]
  const MovingKeywords: seq<string> := ["moving", "truck", "dolly", "cart", "packing", "supplies", "boxes", "help move"]
  const PaymentKeywords: seq<string> := ["payment", "pay", "credit card", "debit", "cash", "check", "auto pay", "billing"]
  const CancellationKeywords: seq<string> := ["cancel", "stop", "end", "terminate", "leave", "move out", "contract", "month to month"]

  /** `FAQ_KEYWORDS`, in the insertion order that `Object.entries` iterates. */
  const FaqTable: seq<FaqEntry> := [
    FaqEntry(Pricing, PricingKeywords),
    FaqEntry(Sizes, SizesKeywords),
    FaqEntry(Climate, ClimateKeywords),
    FaqEntry(Security, SecurityKeywords),
    FaqEntry(Access, AccessKeywords),
    FaqEntry(Insurance, InsuranceKeywords),
    FaqEntry(Reservation, ReservationKeywords),
    FaqEntry(Moving, MovingKeywords),
    FaqEntry(Payment, PaymentKeywords),
    FaqEntry(Cancellation, CancellationKeywords)
  ]

  /** Some keyword of the entry occurs in the (already lower-cased) message. */
  predicate EntryMatches(e: FaqEntry, lower: string) {
    exists k :: k in e.keywords && Includes(lower, k)
  }

  /** Entry `i` is the earliest entry of `table` that matches. */
  predicate FirstMatchAt(table: seq<FaqEntry>, lower: string, i: int) {
    && 0 <= i < |table|
    && EntryMatches(table[i], lower)
    && forall j :: 0 <= j < i ==> !EntryMatches(table[j], lower)
  }

  /** The topic of the first matching entry, scanning the table front to back. */
  function FirstMatch(table: seq<FaqEntry>, lower: string): Option<Topic> {
    if table == [] then None
    else if EntryMatches(table[0], lower) then Some(table[0].topic)
    else FirstMatch(table[1..], lower)
  }

  /** `FirstMatch` finds the earliest matching entry, and finds nothing only when no entry matches. */
  lemma {:induction false} FirstMatchSpec(table: seq<FaqEntry>, lower: string)
    ensures FirstMatch(table, lower) == None <==> forall i :: 0 <= i < |table| ==> !EntryMatches(table[i], lower)
    ensures forall i :: FirstMatchAt(table, lower, i) ==> FirstMatch(table, lower) == Some(table[i].topic)
    ensures FirstMatch(table, lower).Some? ==>
      exists i :: FirstMatchAt(table, lower, i) && table[i].topic == FirstMatch(table, lower).value
  {
    if table != [] {
      FirstMatchSpec(table[1..], lower);
      if EntryMatches(table[0], lower) {
        assert FirstMatchAt(table, lower, 0);
        forall i | FirstMatchAt(table, lower, i) ensures i == 0 { }
      } else {
        forall i | FirstMatchAt(table, lower, i) ensures FirstMatchAt(table[1..], lower, i - 1) {
          assert i != 0;
          forall j | 0 <= j < i - 1 ensures !EntryMatches(table[1..][j], lower) {
            assert table[1..][j] == table[j + 1];
          }
        }
        if FirstMatch(table, lower).Some? {
          var i :| FirstMatchAt(table[1..], lower, i) && table[1..][i].topic == FirstMatch(table, lower).value;
          assert FirstMatchAt(table, lower, i + 1);
        }
        if forall i :: 0 <= i < |table[1..]| ==> !EntryMatches(table[1..][i], lower) {
          forall i | 0 <= i < |table| ensures !EntryMatches(table[i], lower) {
            if i > 0 { assert table[i] == table[1..][i - 1]; }
          }
        }
      }
    }
  }

  /** What `findFAQMatch(message)` answers: the topic whose response it returns, or None for `null`. */
  function FaqMatch(message: string): (r: Option<Topic>)
    ensures r.None? <==> forall i :: 0 <= i < |FaqTable| ==> !EntryMatches(FaqTable[i], Lower(message))
    ensures r.Some? ==> exists i :: FirstMatchAt(FaqTable, Lower(message), i) && FaqTable[i].topic == r.value
  {
    FirstMatchSpec(FaqTable, Lower(message));
    FirstMatch(FaqTable, Lower(message))
  }

  /** `findFAQMatch`: two nested scans with early return, over topics and then over their keywords. */
  method FindFaqMatch(message: string) returns (r: Option<Topic>)
    ensures r.None? <==> forall i :: 0 <= i < |FaqTable| ==> !EntryMatches(FaqTable[i], Lower(message))
    ensures r.Some? ==> exists i :: FirstMatchAt(FaqTable, Lower(message), i) && FaqTable[i].topic == r.value
    ensures r == FaqMatch(message)
  {
    var lower := Lower(message);
    var t := 0;
    while t < |FaqTable|
      invariant 0 <= t <= |FaqTable|
      invariant forall j :: 0 <= j < t ==> !EntryMatches(FaqTable[j], lower)
    {
      var keywords := FaqTable[t].keywords;
      var k := 0;
      while k < |keywords|
        invariant 0 <= k <= |keywords|
        invariant forall q :: 0 <= q < k ==> !Includes(lower, keywords[q])
      {
        if Includes(lower, keywords[k]) {
          r := Some(FaqTable[t].topic);
          assert FirstMatchAt(FaqTable, lower, t);
          FirstMatchSpec(FaqTable, lower);
          return;
        }
        k := k + 1;
      }
      t := t + 1;
    }
    r := None;
    FirstMatchSpec(FaqTable, lower);
  }

  /** Matching ignores case: a message and its lower-cased form get the same answer. */
  lemma FaqMatchIgnoresCase(message: string)
    ensures FaqMatch(message) == FaqMatch(Lower(message))
  {
    LowerIdempotent(message);
  }

  /** A lower-case keyword occurring in the raw message also occurs in the lower-cased one. */
  lemma KeywordSurvivesLowering(message: string, k: string)
    requires Includes(message, k)
    requires Lower(k) == k
    ensures Includes(Lower(message), k)
  {
    LowerPreservesIncludes(message, k);
  }

  /** When entry `k` matches, the answer is the topic of entry `k` or of an earlier one. */
  lemma {:induction false} FirstMatchWithin(table: seq<FaqEntry>, lower: string, k: int)
    requires 0 <= k < |table| && EntryMatches(table[k], lower)
    ensures exists i :: 0 <= i <= k && FirstMatch(table, lower) == Some(table[i].topic)
  {
    if !EntryMatches(table[0], lower) {
      assert table[1..][k - 1] == table[k];
      FirstMatchWithin(table[1..], lower, k - 1);
      var i :| 0 <= i <= k - 1 && FirstMatch(table[1..], lower) == Some(table[1..][i].topic);
      assert table[1..][i] == table[i + 1];
    }
  }

  /** Pricing is declared first and lists "pay", so every message mentioning "pay" in any case gets the pricing answer, never the payment one. */
  lemma PayMeansPricing(message: string)
    requires Includes(Lower(message), "pay")
    ensures FaqMatch(message) == Some(Pricing)
  {
    var pricing := FaqTable[0];
    assert pricing.keywords[9] == "pay";
    assert EntryMatches(pricing, Lower(message));
    FirstMatchWithin(FaqTable, Lower(message), 0);
  }

  /**
   * Climate is the third topic and lists "ac": any message whose lower-cased form contains "ac"
   * gets the pricing, sizes or climate answer, whatever later topic it is about.
   */
  lemma AcShadowsLaterTopics(message: string)
    requires Includes(Lower(message), "ac")
    ensures FaqMatch(message) == Some(Pricing) || FaqMatch(message) == Some(Sizes) || FaqMatch(message) == Some(Climate)
  {
    var climate := FaqTable[2];
    assert climate.keywords[7] == "ac";
    assert EntryMatches(climate, Lower(message));
    FirstMatchWithin(FaqTable, Lower(message), 2);
  }

  /** "access" contains "ac", so a message mentioning "access" in any case never gets the access answer. */
  lemma AccessNeverReachesAccessTopic(message: string)
    requires Includes(Lower(message), "access")
    ensures FaqMatch(message) == Some(Pricing) || FaqMatch(message) == Some(Sizes) || FaqMatch(message) == Some(Climate)
  {
    var lower := Lower(message);
    IncludesIff(lower, "access");
    var i :| OccursAt(lower, "access", i);
    assert lower[i..i + 2] == lower[i..i + 6][..2];
    assert "access"[..2] == "ac";
    assert OccursAt(lower, "ac", i);
    IncludesIff(lower, "ac");
    AcShadowsLaterTopics(message);
  }

  // ---------------------------------------------------------------------------
  // The handler
  // ---------------------------------------------------------------------------

  datatype Source = Faq | Fallback | Claude | Error

  datatype Usage = Usage(inputTokens: int, outputTokens: int)

  datatype Body =
    | NoBody                                                     // `res.end()`
    | ErrorBody(error: string)                                   // `{ error }`
    | Reply(response: Text, source: Source, usage: Option<Usage>) // `{ response, source, usage? }`

  datatype Response = Response(status: int, headers: seq<(string, string)>, body: Body)

  /** What is sent to the provider; the fixed system prompt is left out. */
  datatype ProviderRequest = ProviderRequest(model: string, maxTokens: int, messages: seq<ChatMessage>)

  /** What the provider call yields: the text of its content blocks and the token usage, or a thrown error. */
  datatype ProviderResult = Completed(content: seq<string>, usage: Usage) | Failed

  /** The response, and the provider request if the handler made one. */
  datatype Handled = Handled(response: Response, providerCall: Option<ProviderRequest>)

  const CorsHeaders: seq<(string, string)> := [
    ("Access-Control-Allow-Origin", "*"),
    ("Access-Control-Allow-Methods", "POST, OPTIONS"),
    ("Access-Control-Allow-Headers", "Content-Type")
  ]

  const ProviderModel: string := "claude-sonnet-4-20250514"
  const ProviderMaxTokens: int := 500

  /** The provider's conversation: the last six history entries, then the new message as a user turn. */
  function ProviderMessages(history: seq<ChatMessage>, message: string): (r: seq<ChatMessage>)
    ensures r == LastN(history, 6) + [ChatMessage(User, message)]
    ensures |r| <= 7
  {
    SliceFrom(history, -6) + [ChatMessage(User, message)]
  }

  /** JavaScript truthiness of the `message` field: present and not the empty string. */
  predicate HasMessage(message: Option<string>) {
    message.Some? && message.value != ""
  }

  /**
   * `handler(req, res)`: `httpMethod` is `req.method`, `message` and `history` come from the body
   * (`history` already defaulted to `[]`), `hasKey` says whether an API key is configured, and
   * `provider` stands for the model call.
   */
  function Resolve(httpMethod: string, message: Option<string>, history: seq<ChatMessage>,
                   hasKey: bool, provider: ProviderRequest -> ProviderResult): (r: Handled)
    ensures r.response.headers == CorsHeaders
    ensures httpMethod == "OPTIONS" ==> r.response.status == 200 && r.response.body == NoBody
    ensures httpMethod != "OPTIONS" && httpMethod != "POST" ==>
      r.response.status == 405 && r.response.body == ErrorBody("Method not allowed")
    ensures httpMethod == "POST" && !HasMessage(message) ==>
      r.response.status == 400 && r.response.body == ErrorBody("Message is required")
    ensures httpMethod == "POST" && HasMessage(message) ==> r.response.status == 200 && r.response.body.Reply?
    ensures r.providerCall.Some? <==>
      httpMethod == "POST" && HasMessage(message) && FaqMatch(message.value).None? && hasKey
    ensures r.providerCall.Some? ==>
      r.providerCall.value == ProviderRequest(ProviderModel, ProviderMaxTokens,
                                              LastN(history, 6) + [ChatMessage(User, message.value)])
    ensures r.response.body.Reply? && r.response.body.source == Faq <==>
      httpMethod == "POST" && HasMessage(message) && FaqMatch(message.value).Some?
    ensures r.response.body.Reply? && r.response.body.source == Faq ==>
      r.response.body == Reply(FaqAnswer(FaqMatch(message.value).value), Faq, None)
    ensures r.response.body.Reply? && r.response.body.source == Fallback <==>
      httpMethod == "POST" && HasMessage(message) && FaqMatch(message.value).None? && !hasKey
    ensures r.response.body.Reply? && r.response.body.source == Fallback ==> r.response.body.response == HelpText
    ensures r.providerCall.Some? ==>
      var result := provider(r.providerCall.value);
      if result.Completed? && |result.content| > 0
      then r.response.body == Reply(Generated(result.content[0]), Claude, Some(result.usage))
      else r.response.body == Reply(ApologyText, Error, None)
  {
    if httpMethod == "OPTIONS" then
      Handled(Response(200, CorsHeaders, NoBody), None)
    else if httpMethod != "POST" then
      Handled(Response(405, CorsHeaders, ErrorBody("Method not allowed")), None)
    else if !HasMessage(message) then
      Handled(Response(400, CorsHeaders, ErrorBody("Message is required")), None)
    else
      var faq := FaqMatch(message.value);
      if faq.Some? then
        Handled(Response(200, CorsHeaders, Reply(FaqAnswer(faq.value), Faq, None)), None)
      else if !hasKey then
        Handled(Response(200, CorsHeaders, Reply(HelpText, Fallback, None)), None)
      else
        var request := ProviderRequest(ProviderModel, ProviderMaxTokens, ProviderMessages(history, message.value));
        var result := provider(request);
        var body :=
          // `response.content[0].text` throws on an empty content list; the catch turns it into the apology.
          if result.Completed? && |result.content| > 0
          then Reply(Generated(result.content[0]), Claude, Some(result.usage))
          else Reply(ApologyText, Error, None);
        Handled(Response(200, CorsHeaders, body), Some(request))
  }

  /** A request with a message never fails at the HTTP level, whatever the provider does. */
  lemma PostWithMessageIsOk(message: string, history: seq<ChatMessage>, hasKey: bool,
                            provider: ProviderRequest -> ProviderResult)
    requires message != ""
    ensures Resolve("POST", Some(message), history, hasKey, provider).response.status == 200
  {
  }

  /** The reply does not depend on which provider is plugged in unless the provider is actually called. */
  lemma ProviderIrrelevantWithoutCall(httpMethod: string, message: Option<string>, history: seq<ChatMessage>,
                                      hasKey: bool, p: ProviderRequest -> ProviderResult, q: ProviderRequest -> ProviderResult)
    requires Resolve(httpMethod, message, history, hasKey, p).providerCall.None?
    ensures Resolve(httpMethod, message, history, hasKey, p) == Resolve(httpMethod, message, history, hasKey, q)
  {
  }

  // Concrete scenarios.

  /** "How much does a unit cost?" contains "how much" and gets the pricing answer from the FAQ. */
  lemma HowMuchIsPricing(history: seq<ChatMessage>, hasKey: bool, provider: ProviderRequest -> ProviderResult)
    ensures Resolve("POST", Some("How much does a unit cost?"), history, hasKey, provider).response
         == Response(200, CorsHeaders, Reply(FaqAnswer(Pricing), Faq, None))
  {
    var lower := Lower("How much does a unit cost?");
    assert lower[..8] == "how much";
    assert OccursAt(lower, "how much", 0);
    IncludesIff(lower, "how much");
    var pricing := FaqTable[0];
    assert "how much" in pricing.keywords;
    assert EntryMatches(pricing, lower);
    FirstMatchWithin(FaqTable, lower, 0);
  }

  /** The lower-cased access quick question. */
  const AccessQuestion: string := "can i access my unit anytime?"

  /**
   * An entry does not match when each of its keywords has a character the message lacks;
   * `missing[i]` names that character for keyword `i`.
   */
  lemma EntryMissesByMissingChars(e: FaqEntry, lower: string, missing: string)
    requires |missing| == |e.keywords|
    requires forall i :: 0 <= i < |missing| ==> missing[i] in e.keywords[i] && missing[i] !in lower
    ensures !EntryMatches(e, lower)
  {
    forall k | k in e.keywords ensures !Includes(lower, k) {
      var i :| 0 <= i < |e.keywords| && e.keywords[i] == k;
      MissingCharExcludes(lower, k, missing[i]);
    }
  }

  // The access quick question, checked against the first three topics.

  /**
   * The quick question "Can I access my unit anytime?" matches no pricing or sizes keyword, and
   * "ac" occurs in "access": it gets the climate answer, not the access one.
   */
  lemma AccessQuestionGetsClimate()
    ensures FaqMatch("Can I access my unit anytime?") == Some(Climate)
  {
    AccessQuestionLowered();
    var lower := AccessQuestion;
    AccessQuestionMissesPricing();
    AccessQuestionMissesSizes();
    AccessQuestionIncludesAc();
    assert FaqTable[0] == FaqEntry(Pricing, PricingKeywords);
    assert FaqTable[1] == FaqEntry(Sizes, SizesKeywords);
    var climate := FaqTable[2];
    assert climate.keywords[7] == "ac";
    assert EntryMatches(climate, lower);
    assert FirstMatchAt(FaqTable, lower, 2);
    FirstMatchSpec(FaqTable, lower);
  }

  lemma AccessQuestionMissesPricing()
    ensures !EntryMatches(FaqEntry(Pricing, PricingKeywords), AccessQuestion)
  {
    EntryMissesByMissingChars(FaqEntry(Pricing, PricingKeywords), AccessQuestion, "pohphfropp");
  }

  lemma AccessQuestionMissesSizes()
    ensures !EntryMatches(FaqEntry(Sizes, SizesKeywords), AccessQuestion)
  {
    EntryMissesByMissingChars(FaqEntry(Sizes, SizesKeywords), AccessQuestion, "zdbllfhpqq511");
  }

  lemma AccessQuestionLowered()
    ensures Lower("Can I access my unit anytime?") == AccessQuestion
  {
  }

  lemma AccessQuestionIncludesAc()
    ensures Includes(AccessQuestion, "ac")
  {
    var q := AccessQuestion;
    assert q[6] == 'a';
    assert q[7] == 'c';
    assert q[6..8] == "ac";
    assert OccursAt(q, "ac", 6);
    IncludesIff(AccessQuestion, "ac");
  }
}
