/**
 * The chat router: the bounded least-recently-used store of conversations
 * kept in memory when no database is configured, the validation of an
 * incoming message, the choice between the retrieval pipeline and the
 * canned replies, and the keyword dispatch of those replies.
 */
module Chat {
  import opened Wrappers
  import opened Strings
  import opened ChatModels

  const MaxMessageLength := 10000
  const MaxInMemoryConversations := 1000

  /** No key occurs twice. */
  predicate Distinct(s: seq<string>) {
    forall i, j :: 0 <= i < j < |s| ==> s[i] != s[j]
  }

  /** `s` with `k` taken out, the rest in their order. */
  function Without(s: seq<string>, k: string): (r: seq<string>)
    ensures forall x :: x in r <==> x in s && x != k
    ensures k !in s ==> r == s
    ensures Distinct(s) ==> Distinct(r)
    ensures Distinct(s) && k in s ==> |r| == |s| - 1
    decreases |s|
  {
    if |s| == 0 then []
    else
      var rest := Without(s[1..], k);
      if s[0] == k then
        rest
      else
        assert Distinct(s) ==> Distinct(s[1..]) && s[0] !in s[1..] by {
          if Distinct(s) {
            forall i, j | 0 <= i < j < |s[1..]| ensures s[1..][i] != s[1..][j] {
              assert s[1..][i] == s[i + 1] && s[1..][j] == s[j + 1];
            }
          }
        }
        [s[0]] + rest
  }

  /**
   * `LRUConversationCache`: an ordered dict of conversations, oldest use
   * first, that forgets its least recently used conversation when an
   * insertion takes it past `max_size`.
   */
  class LruConversationCache {
    const maxSize: int
    var order: seq<string>
    var entries: map<string, seq<ChatMessage>>

    /** How many conversations fit: a negative `max_size` keeps none. */
    function Capacity(): nat {
      if maxSize < 0 then 0 else maxSize
    }

    /** The order lists each stored key once, and never more keys than fit. */
    ghost predicate Valid()
      reads this
    {
      && Distinct(order)
      && (forall k :: k in entries <==> k in order)
      && |order| <= Capacity()
    }

    /** `k in cache`: a membership test, which does not count as a use. */
    predicate Has(k: string)
      reads this
    {
      k in entries
    }

    constructor (maxSize: int := MaxInMemoryConversations)
      ensures Valid() && this.maxSize == maxSize && order == [] && entries == map[]
    {
      this.maxSize := maxSize;
      order, entries := [], map[];
    }

    /**
     * `cache[key] = value`: a stored key moves to the most recent end and
     * nothing is evicted; a new key is added at that end, and when that
     * takes the cache past its capacity the oldest key leaves.
     */
    method Set(key: string, value: seq<ChatMessage>)
      requires Valid()
      modifies this
      ensures Valid()
      ensures key in old(entries) ==> order == Without(old(order), key) + [key] && entries == old(entries)[key := value]
      ensures key !in old(entries) && |old(order)| < Capacity() ==>
                order == old(order) + [key] && entries == old(entries)[key := value]
      ensures key !in old(entries) && |old(order)| >= Capacity() ==>
                order == (old(order) + [key])[1..] && entries == old(entries)[key := value] - {(old(order) + [key])[0]}
    {
      if key in entries {
        order := Without(order, key) + [key];
      } else {
        order := order + [key];
      }
      entries := entries[key := value];
      if |order| > Capacity() {
        var oldest := order[0];
        assert forall x :: x in order[1..] <==> x in order && x != oldest by {
          forall x | x in order[1..] ensures x != oldest {
            var i :| 0 <= i < |order[1..]| && order[1..][i] == x;
            assert order[i + 1] == x;
          }
        }
        order := order[1..];
        entries := entries - {oldest};
      }
    }

    /** `cache[key]`: a stored key is returned and becomes the most recent; a missing one raises `KeyError`. */
    method Get(key: string) returns (r: Result<seq<ChatMessage>>)
      requires Valid()
      modifies this
      ensures Valid() && entries == old(entries)
      ensures key in old(entries) ==> r == Ok(old(entries)[key]) && order == Without(old(order), key) + [key]
      ensures key !in old(entries) ==> r == Err(KeyError) && order == old(order)
    {
      if key !in entries {
        return Err(KeyError);
      }
      order := Without(order, key) + [key];
      r := Ok(entries[key]);
    }

    /** `cache[key].append(m)`: a use of the key, then an append to its list in place. */
    method AppendTo(key: string, m: ChatMessage) returns (r: Result<bool>)
      requires Valid()
      modifies this
      ensures Valid()
      ensures key in old(entries) ==> r.Ok? && order == Without(old(order), key) + [key] && entries == old(entries)[key := old(entries)[key] + [m]]
      ensures key !in old(entries) ==> r == Err(KeyError) && order == old(order) && entries == old(entries)
    {
      var current := Get(key);
      if current.Err? {
        return Err(current.error);
      }
      entries := entries[key := current.value + [m]];
      r := Ok(true);
    }
  }

  /** The messages stored under `id`, none for an unknown conversation. */
  function Stored(entries: map<string, seq<ChatMessage>>, id: string): seq<ChatMessage> {
    if id in entries then entries[id] else []
  }

  /** The user's message as it is saved. */
  function UserMessage(message: string): (m: ChatMessage)
    ensures ValidRole(m) && m.role == "user" && m.content == message && m.citations.None?
  {
    ChatMessage("user", message, None)
  }

  /**
   * The in-memory `_save_messages`: an unknown conversation is first stored
   * empty, then the user message and the assistant message are appended to
   * it. A cache with no room evicts the new conversation at once, and the
   * append raises `KeyError`.
   */
  method SaveMessages(cache: LruConversationCache, id: string, user: ChatMessage, assistant: ChatMessage) returns (r: Result<bool>)
    requires cache.Valid()
    modifies cache
    ensures cache.Valid()
    ensures r.Ok? <==> cache.Capacity() > 0
    ensures r.Err? ==> r.error == KeyError
    ensures r.Ok? ==> id in cache.entries && cache.order[|cache.order| - 1] == id
    ensures r.Ok? ==> cache.entries[id] == Stored(old(cache.entries), id) + [user, assistant]
    ensures forall k :: k in cache.entries && k != id ==> k in old(cache.entries) && cache.entries[k] == old(cache.entries)[k]
  {
    if !cache.Has(id) {
      cache.Set(id, []);
    }
    assert id in cache.entries <==> cache.Capacity() > 0;
    var first := cache.AppendTo(id, user);
    if first.Err? {
      return first;
    }
    r := cache.AppendTo(id, assistant);
  }

  /** The in-memory `_get_conversation_history`: the stored turns, or none; reading the conversation counts as a use. */
  method History(cache: LruConversationCache, id: string) returns (h: seq<Turn>)
    requires cache.Valid()
    modifies cache
    ensures cache.Valid() && cache.entries == old(cache.entries)
    ensures h == Turns(Stored(old(cache.entries), id))
    ensures id in old(cache.entries) ==> cache.order == Without(old(cache.order), id) + [id]
    ensures id !in old(cache.entries) ==> cache.order == old(cache.order)
  {
    h := [];
    if cache.Has(id) {
      var stored := cache.Get(id);
      h := Turns(stored.value);
    }
  }

  /**
   * The checks a message passes before any processing: the request model
   * refuses an empty message (422); the handler refuses one over 10000
   * characters and one of whitespace only (400).
   */
  function ValidateMessage(message: string): (r: Result<string>)
    ensures r.Ok? <==> 0 < |message| <= MaxMessageLength && exists i :: 0 <= i < |message| && !IsSpace(message[i])
    ensures |message| == 0 ==> r == Err(HttpException(422))
    ensures 0 < |message| ==> (r.Err? ==> r == Err(HttpException(400)))
    ensures r.Ok? ==> r.value == message
  {
    StripEmpty(message);
    if |message| == 0 then Err(HttpException(422))
    else if |message| > MaxMessageLength then Err(HttpException(400))
    else if Strip(message) == "" then Err(HttpException(400))
    else Ok(message)
  }

  /** `request.conversation_id or str(uuid.uuid4())`: an absent or empty id is replaced by a fresh one. */
  function ConversationId(given: Option<string>, newId: string): (r: string)
    ensures given.Some? && given.value != "" ==> r == given.value
    ensures (given.None? || given.value == "") ==> r == newId
  {
    if given.Some? && given.value != "" then given.value else newId
  }

  /** The guide a question names, from its lower-cased text. */
  function DetectGse(message: string): (r: Option<string>)
    ensures var l := Lower(message);
      && (r == Some("fannie_mae") <==> Contains(l, "fannie") || Contains(l, "homeready"))
      && (r == Some("freddie_mac") <==> !(Contains(l, "fannie") || Contains(l, "homeready")) && (Contains(l, "freddie") || Contains(l, "home possible")))
      && (r.Some? ==> r == Some("fannie_mae") || r == Some("freddie_mac"))
  {
    var l := Lower(message);
    assert "fannie_mae"[1] != "freddie_mac"[1];
    if Contains(l, "fannie") || Contains(l, "homeready") then Some("fannie_mae")
    else if Contains(l, "freddie") || Contains(l, "home possible") then Some("freddie_mac")
    else None
  }

  /** The canned replies, one per topic. */
  datatype Topic = HomeReadyTopic | HomePossibleTopic | CreditTopic | DtiTopic | LtvTopic | DefaultTopic

  predicate AsksHomeReady(l: string) { Contains(l, "homeready") || Contains(l, "home ready") }
  predicate AsksHomePossible(l: string) { Contains(l, "home possible") || Contains(l, "homepossible") }
  predicate AsksCredit(l: string) { Contains(l, "credit score") || Contains(l, "credit") }
  predicate AsksDti(l: string) { Contains(l, "dti") || Contains(l, "debt-to-income") || Contains(l, "debt to income") }
  predicate AsksLtv(l: string) { Contains(l, "ltv") || Contains(l, "loan-to-value") || Contains(l, "loan to value") }

  /** The topic of `_generate_mock_response`: the first of its keyword tests that the lower-cased message passes. */
  function MockTopic(message: string): (t: Topic)
    ensures var l := Lower(message);
      && (t == HomeReadyTopic <==> AsksHomeReady(l))
      && (t == HomePossibleTopic <==> !AsksHomeReady(l) && AsksHomePossible(l))
      && (t == CreditTopic <==> !AsksHomeReady(l) && !AsksHomePossible(l) && AsksCredit(l))
      && (t == DtiTopic <==> !AsksHomeReady(l) && !AsksHomePossible(l) && !AsksCredit(l) && AsksDti(l))
      && (t == LtvTopic <==> !AsksHomeReady(l) && !AsksHomePossible(l) && !AsksCredit(l) && !AsksDti(l) && AsksLtv(l))
      && (t == DefaultTopic <==> !AsksHomeReady(l) && !AsksHomePossible(l) && !AsksCredit(l) && !AsksDti(l) && !AsksLtv(l))
  {
    var l := Lower(message);
    if AsksHomeReady(l) then HomeReadyTopic
    else if AsksHomePossible(l) then HomePossibleTopic
    else if AsksCredit(l) then CreditTopic
    else if AsksDti(l) then DtiTopic
    else if AsksLtv(l) then LtvTopic
    else DefaultTopic
  }

  /** A text that holds `t + u` holds `t`. */
  lemma {:induction false} ContainsPrefixOf(s: string, t: string, u: string)
    requires Contains(s, t + u)
    ensures Contains(s, t)
    decreases |s|
  {
    if StartsWith(s, t + u) {
      assert s[..|t|] == (t + u)[..|t|];
    } else {
      ContainsPrefixOf(s[1..], t, u);
    }
  }

  /** The "credit score" test is subsumed by the "credit" test that follows it. */
  lemma CreditTestIsCredit(l: string)
    ensures AsksCredit(l) <==> Contains(l, "credit")
  {
    if Contains(l, "credit score") {
      assert "credit score" == "credit" + " score";
      ContainsPrefixOf(l, "credit", " score");
    }
  }

  const SellingGuideB5601Url := "https://selling-guide.fanniemae.com/Selling-Guide/Origination-thru-Closing/Subpart-B5-Unique-Eligibility-Underwriting-Considerations/Chapter-B5-6-HomeReady-Mortgage/1032996841/B5-6-01-HomeReady-Mortgage-Loan-and-Borrower-Eligibility-05-01-2024.htm"
  const SellingGuideB56Url := "https://selling-guide.fanniemae.com/Selling-Guide/Origination-thru-Closing/Subpart-B5-Unique-Eligibility-Underwriting-Considerations/Chapter-B5-6-HomeReady-Mortgage/"
  const FreddieGuide45015Url := "https://guide.freddiemac.com/app/guide/section/4501.5"

  const HomeReadyDesign := Citation("The HomeReady mortgage is designed to help lenders serve creditworthy low-income borrowers",
                                    "Fannie Mae Selling Guide B5-6-01", Some(SellingGuideB5601Url))
  const HomeReadyCredit := Citation("Minimum representative credit score of 620", "Fannie Mae Selling Guide B5-6-02", Some(SellingGuideB56Url))
  const HomePossibleDesign := Citation("Home Possible mortgages offer low down payments for low-to-moderate income borrowers",
                                       "Freddie Mac Single-Family Seller/Servicer Guide 4501.5", Some(FreddieGuide45015Url))
  const FannieCredit := Citation("Minimum representative credit score of 620 for HomeReady", "Fannie Mae Selling Guide B5-6-02", None)
  const FreddieCredit := Citation("Minimum indicator score of 660 for Home Possible", "Freddie Mac Guide 4501.5", None)
  const FannieDti := Citation("Maximum DTI ratio of 50% for HomeReady", "Fannie Mae Selling Guide B5-6-02", None)
  const FreddieDti := Citation("Maximum DTI ratio of 45% for Home Possible", "Freddie Mac Guide 4501.5", None)
  const FannieLtv := Citation("Maximum LTV of 97% for HomeReady 1-unit primary residence", "Fannie Mae Selling Guide B5-6-01", None)
  const FreddieLtv := Citation("Maximum LTV of 97% for Home Possible", "Freddie Mac Guide 4501.5", None)

  /** The citations each canned reply carries; the default reply carries none. */
  function MockCitations(t: Topic): (cs: seq<Citation>)
    ensures t == DefaultTopic <==> cs == []
    ensures t == HomePossibleTopic ==> |cs| == 1
    ensures t != DefaultTopic && t != HomePossibleTopic ==> |cs| == 2
  {
    match t
    case HomeReadyTopic => [HomeReadyDesign, HomeReadyCredit]
    case HomePossibleTopic => [HomePossibleDesign]
    case CreditTopic => [FannieCredit, FreddieCredit]
    case DtiTopic => [FannieDti, FreddieDti]
    case LtvTopic => [FannieLtv, FreddieLtv]
    case DefaultTopic => []
  }

  /** The text of each canned reply. */
  function MockText(t: Topic): string {
    match t
    case HomeReadyTopic =>
      "HomeReady is Fannie Mae's affordable lending product designed for low-to-moderate income borrowers. Key features include:\n\n"
      + "- Minimum credit score: 620\n- Maximum LTV: 97% for 1-unit primary residence\n- Maximum DTI: 50%\n"
      + "- Income limit: 80% of Area Median Income (AMI)\n- Reduced MI coverage requirements\n\n"
      + "Homeownership education is required if all borrowers are first-time homebuyers."
    case HomePossibleTopic =>
      "Home Possible is Freddie Mac's affordable lending product for low-to-moderate income borrowers. Key features include:\n\n"
      + "- Minimum credit score: 660\n- Maximum LTV: 97%\n- Maximum DTI: 45% (43% for Loan Product Advisor)\n"
      + "- Income limit: 80% of Area Median Income (AMI)\n- Flexible sources of funds for down payment\n\n"
      + "Homeownership education is required for first-time homebuyers."
    case CreditTopic =>
      "Credit score requirements differ between the two affordable lending products:\n\n"
      + "**HomeReady (Fannie Mae):**\n- Minimum credit score: 620\n\n"
      + "**Home Possible (Freddie Mac):**\n- Minimum credit score: 660\n\n"
      + "Both products use the middle credit score when multiple scores are available. "
      + "Higher credit scores may qualify for better pricing adjustments."
    case DtiTopic =>
      "Debt-to-Income (DTI) ratio limits for affordable lending products:\n\n"
      + "**HomeReady (Fannie Mae):**\n- Maximum DTI: 50%\n"
      + "- Desktop Underwriter (DU) may approve higher DTI with compensating factors\n\n"
      + "**Home Possible (Freddie Mac):**\n- Maximum DTI: 45%\n- Loan Product Advisor (LPA): 43%\n\n"
      + "DTI is calculated as total monthly debt obligations divided by gross monthly income."
    case LtvTopic =>
      "Loan-to-Value (LTV) limits for affordable lending products:\n\n"
      + "**HomeReady (Fannie Mae):**\n- Maximum LTV: 97% for 1-unit primary residence\n"
      + "- Lower LTV limits may apply for 2-4 unit properties\n\n"
      + "**Home Possible (Freddie Mac):**\n- Maximum LTV: 97%\n\n"
      + "Both products require private mortgage insurance (MI) for LTV > 80%, "
      + "though coverage requirements may be reduced."
    case DefaultTopic =>
      "I can help you understand the eligibility requirements for HomeReady (Fannie Mae) and Home Possible (Freddie Mac) affordable lending products. "
      + "You can ask me about:\n\n- Credit score requirements\n- DTI (debt-to-income) limits\n- LTV (loan-to-value) limits\n"
      + "- Income limits and AMI requirements\n- Property eligibility\n- Homeownership education requirements\n\n"
      + "What would you like to know?"
  }

  /** `_generate_mock_response`: the reply and citations for the message's topic. */
  function MockResponse(message: string): (r: (string, seq<Citation>))
    ensures r.1 == [] <==> MockTopic(message) == DefaultTopic
  {
    var t := MockTopic(message);
    (MockText(t), MockCitations(t))
  }

  /** The settings that choose the pipeline: the feature flag and the two API keys. */
  datatype ChatSettings = ChatSettings(enableRagChat: bool, anthropicApiKey: string, pineconeApiKey: string)

  predicate RagConfigured(s: ChatSettings) {
    s.enableRagChat && s.anthropicApiKey != "" && s.pineconeApiKey != ""
  }

  /** The assistant message for a reply and its citations. */
  function AssistantMessage(reply: (string, seq<Citation>)): (m: ChatMessage)
    ensures ValidRole(m) && m.role == "assistant" && m.content == reply.0 && m.citations == Some(reply.1)
  {
    ChatMessage("assistant", reply.0, Some(reply.1))
  }

  /**
   * `_process_mock_chat` and `_process_rag_chat` (in-memory path): the reply,
   * from the canned replies or from the retrieval service given the history
   * and the detected guide, is saved with the user message and returned.
   */
  method ProcessChat(cache: LruConversationCache, message: string, id: string, useRag: bool,
                     ragChat: (string, seq<Turn>, Option<string>) -> Result<(string, seq<Citation>)>)
    returns (r: Result<ChatResponse>)
    requires cache.Valid()
    modifies cache
    ensures cache.Valid()
    ensures !useRag ==> (r.Ok? <==> cache.Capacity() > 0)
    ensures !useRag && r.Ok? ==> r.value == ChatResponse(AssistantMessage(MockResponse(message)), id)
    ensures useRag ==> var reply := ragChat(message, Turns(Stored(old(cache.entries), id)), DetectGse(message));
      && (reply.Err? ==> r == Err(reply.error) && cache.entries == old(cache.entries))
      && (reply.Ok? ==> (r.Ok? <==> cache.Capacity() > 0))
      && (reply.Ok? && r.Ok? ==> r.value == ChatResponse(AssistantMessage(reply.value), id))
    ensures r.Ok? ==> id in cache.entries && cache.entries[id] == Stored(old(cache.entries), id) + [UserMessage(message), r.value.message]
    ensures !useRag && r.Err? ==> r.error == KeyError
  {
    var reply: (string, seq<Citation>);
    if useRag {
      var history := History(cache, id);
      var answer := ragChat(message, history, DetectGse(message));
      if answer.Err? {
        return Err(answer.error);
      }
      reply := answer.value;
    } else {
      reply := MockResponse(message);
    }
    var assistant := AssistantMessage(reply);
    var saved := SaveMessages(cache, id, UserMessage(message), assistant);
    if saved.Err? {
      return Err(saved.error);
    }
    r := Ok(ChatResponse(assistant, id));
  }

  /**
   * `chat`: validation first; then the retrieval pipeline when it is enabled
   * and configured, else the canned replies. A `ValueError` from the
   * pipeline, pydantic's `ValidationError` included, falls back to the
   * canned replies; any other error becomes a 500. An error raised by that
   * fallback is not caught and escapes as it is.
   */
  method ChatEndpoint(cache: LruConversationCache, request: ChatRequest, settings: ChatSettings, freshId: string,
                      ragChat: (string, seq<Turn>, Option<string>) -> Result<(string, seq<Citation>)>)
    returns (r: Result<ChatResponse>)
    requires cache.Valid()
    modifies cache
    ensures cache.Valid()
    ensures ValidateMessage(request.message).Err? ==> r == Err(ValidateMessage(request.message).error) && unchanged(cache)
    ensures r.Ok? ==> ValidateMessage(request.message).Ok? && r.value.conversationId == ConversationId(request.conversationId, freshId)
    ensures r.Ok? ==> ValidRole(r.value.message) && r.value.message.role == "assistant"
    ensures ValidateMessage(request.message).Ok? && !RagConfigured(settings) ==>
              (r.Ok? <==> cache.Capacity() > 0) && (r.Ok? ==> r.value.message == AssistantMessage(MockResponse(request.message)))
    ensures ValidateMessage(request.message).Ok? && RagConfigured(settings) ==>
      var id := ConversationId(request.conversationId, freshId);
      var reply := ragChat(request.message, Turns(Stored(old(cache.entries), id)), DetectGse(request.message));
      && (reply.Err? && reply.error.IsValueError() ==>
            (r.Ok? <==> cache.Capacity() > 0) && (r.Ok? ==> r.value.message == AssistantMessage(MockResponse(request.message))))
      && (reply.Err? && !reply.error.IsValueError() ==> r == Err(HttpException(500)))
      && (reply.Ok? ==> (r.Ok? <==> cache.Capacity() > 0) && (r.Ok? ==> r.value.message == AssistantMessage(reply.value)))
    ensures r.Err? && ValidateMessage(request.message).Ok? ==> r.error == HttpException(500) || r.error == KeyError
  {
    var valid := ValidateMessage(request.message);
    if valid.Err? {
      return Err(valid.error);
    }
    var id := ConversationId(request.conversationId, freshId);
    if RagConfigured(settings) {
      r := ProcessChat(cache, request.message, id, true, ragChat);
      if r.Err? && r.error.IsValueError() {
        r := ProcessChat(cache, request.message, id, false, ragChat);
      } else if r.Err? {
        r := Err(HttpException(500));
      }
    } else {
      r := ProcessChat(cache, request.message, id, false, ragChat);
      if r.Err? {
        r := Err(HttpException(500));
      }
    }
  }
}
