/** The contract assistant of the chat dialog
    (src/components/contracts/ChatModal.tsx): a canned reply chosen by the
    first topic keyword the question mentions, and the sending of a question,
    which records it at once and the reply later. */
module Chat {
  import opened Text
  import opened Lists
  import opened Rules
  import opened Domain
  import opened ContractStore

  /** A day in milliseconds: `1000 * 60 * 60 * 24`. */
  const DayMs: nat := 1000 * 60 * 60 * 24

  datatype Topic = MarginTopic | ServiceTopic | TerritoryTopic | PaymentTopic | ExpiryTopic | GeneralTopic

  /** The topic tests of lines 71, 78, 85, 92 and 99, in their order. */
  const TopicRules: seq<Rule<Topic>> := [
    Rule(["margin", "commission"], MarginTopic),
    Rule(["sla", "service"], ServiceTopic),
    Rule(["territory", "rights"], TerritoryTopic),
    Rule(["payment", "terms"], PaymentTopic),
    Rule(["expire", "renewal"], ExpiryTopic)
  ]

  /** The topic of an already lower-cased question; questions that mention no
      topic get the general answer. */
  function TopicOf(lowerQuery: string): Topic
  {
    Lookup(TopicRules, lowerQuery, GeneralTopic)
  }

  /** What `generateAIResponse` returns: the reply text and, except for the
      general answer, the contract clause it quotes. */
  datatype Reply = Reply(content: string, clause: Option<string>)

  // ---------------------------------------------------------------------
  // The key terms as the answers read them: `contract.keyTerms?.field`

  function TermMargin(c: Contract): Option<string>
  {
    if c.keyTerms.Some? then c.keyTerms.value.margin else None
  }

  function TermSla(c: Contract): Option<string>
  {
    if c.keyTerms.Some? then c.keyTerms.value.slaTime else None
  }

  function TermTerritory(c: Contract): Option<string>
  {
    if c.keyTerms.Some? then c.keyTerms.value.territory else None
  }

  function TermPayment(c: Contract): Option<string>
  {
    if c.keyTerms.Some? then c.keyTerms.value.paymentTerms else None
  }

  /** `contract.keyTerms?.exclusivity` is truthy. */
  predicate Exclusive(c: Contract)
  {
    c.keyTerms.Some? && c.keyTerms.value.exclusivity == Some(true)
  }

  /** `contract.changes?.find(c => c.field === 'Margin')` finds something. */
  predicate HasMarginChange(c: Contract)
  {
    c.changes.Some? && exists i :: 0 <= i < |c.changes.value| && c.changes.value[i].field == "Margin"
  }

  // ---------------------------------------------------------------------
  // The answers. Their fixed texts are written as concatenations of short
  // pieces, which spell the same strings and keep the verifier's reasoning
  // about their lengths small.

  /** `**text**`, the markdown bold the answers put around the quoted term. */
  function Bold(text: string): string
  {
    "**" + text + "**"
  }

  function MarginReply(c: Contract): (r: Reply)
    ensures r.clause.Some?
  {
    var margin := OrElse(TermMargin(c), "10%");
    Reply(
      "Based on the " + c.series + (" agreement, " + "your current " + "commission " + "margin is ") + Bold(margin)
        + ". This represents "
        + (if HasMarginChange(c) then ("an improvement " + "from the " + "previous version") else "the standard rate") + ".",
      Some(("Section 4.2: " + "Commission " + "Structure - " + "Distributor " + "shall receive ") + margin + (" margin on all " + "units sold.")))
  }

  function ServiceReply(c: Contract): (r: Reply)
    ensures r.clause.Some?
  {
    Reply(
      ("The service " + "level agreement " + "for ") + c.series + " specifies a " + Bold(OrElse(TermSla(c), "24 hour"))
        + (" turnaround " + "time for " + "repairs and " + "replacements. " + "This is ")
        + (if TermSla(c) == Some("12 hours") then "faster than" else "standard compared to") + " previous models.",
      Some(("Section 7.1: " + "Service " + "Requirements - " + "All warranty " + "claims must be " + "processed " + "within ")
        + OrElse(TermSla(c), "24 hours") + "."))
  }

  function TerritoryReply(c: Contract): (r: Reply)
    ensures r.clause.Some?
  {
    Reply(
      ("Your " + "distribution " + "rights for ") + c.series + " cover " + Bold(OrElse(TermTerritory(c), "1 state")) + ". "
        + (if Exclusive(c) then ("You have " + "exclusive " + "rights in this " + "territory.") else ("This is a " + "non-exclusive " + "arrangement.")),
      Some(("Section 3.1: " + "Territory " + "Rights - " + "Distributor is " + "authorized to " + "sell in ")
        + OrElse(TermTerritory(c), "designated territory") + "."))
  }

  function PaymentReply(c: Contract): (r: Reply)
    ensures r.clause.Some?
  {
    var payment := OrElse(TermPayment(c), "60 days");
    Reply(
      "Payment terms for " + c.series + " are " + Bold(payment)
        + (" net. Invoices " + "are generated " + "monthly and " + "payment is " + "expected within " + "the specified " + "timeframe."),
      Some(("Section 5.3: " + "Payment Terms - " + "All invoices " + "are due ") + payment + " from date of issue."))
  }

  /** `Math.floor((expiry - now) / (1000 * 60 * 60 * 24))`: whole days left,
      rounded down, so a contract that expired part of a day ago has -1. */
  function DaysUntilExpiry(expiryDate: int, now: int): (days: int)
    ensures days * DayMs <= expiryDate - now < (days + 1) * DayMs
  {
    (expiryDate - now) / DayMs
  }

  const RenewalSoon: string := ("\U{26A0}\U{FE0F} Renewal " + "action is " + "recommended " + "soon.")
  const RenewalLater: string := ("You have time " + "to plan for " + "renewal " + "negotiations.")

  /** The expiry answer; `expiryText` is what `toLocaleDateString` renders
      for the expiry date. */
  function ExpiryReply(c: Contract, now: int, expiryText: string): (r: Reply)
    ensures r.clause.Some?
  {
    var days := DaysUntilExpiry(c.expiryDate, now);
    Reply(
      "This " + c.series + (" agreement " + "expires in ") + Bold(IntToString(days) + " days") + ". "
        + (if days < 60 then RenewalSoon else RenewalLater),
      Some(("Section 12.1: " + "Term and " + "Renewal - This " + "agreement " + "expires on ") + expiryText + "."))
  }

  function GeneralReply(c: Contract): (r: Reply)
    ensures r.clause.None?
  {
    Reply(
      ("I can help you " + "understand the ") + c.series
        + (" agreement. You " + "can ask about " + "margins, " + "service levels, " + "territory " + "rights, payment " + "terms, or any " + "other contract " + "details. What " + "would you like " + "to know?"),
      None)
  }

  /** The answer to each topic. */
  function AnswerTo(topic: Topic, c: Contract, now: int, expiryText: string): Reply
  {
    match topic
    case MarginTopic => MarginReply(c)
    case ServiceTopic => ServiceReply(c)
    case TerritoryTopic => TerritoryReply(c)
    case PaymentTopic => PaymentReply(c)
    case ExpiryTopic => ExpiryReply(c, now, expiryText)
    case GeneralTopic => GeneralReply(c)
  }

  /** The topic tests of lines 69-110, as the code writes them: the first
      test that succeeds on the lower-cased question decides. */
  function ChainTopic(q: string): Topic
  {
    if Contains(q, "margin") || Contains(q, "commission") then MarginTopic
    else if Contains(q, "sla") || Contains(q, "service") then ServiceTopic
    else if Contains(q, "territory") || Contains(q, "rights") then TerritoryTopic
    else if Contains(q, "payment") || Contains(q, "terms") then PaymentTopic
    else if Contains(q, "expire") || Contains(q, "renewal") then ExpiryTopic
    else GeneralTopic
  }

  /** `generateAIResponse(query, contract)`: the answer to the topic the
      question's first keyword selects. */
  function GenerateAIResponse(query: string, c: Contract, now: int, expiryText: string): Reply
  {
    AnswerTo(ChainTopic(ToLower(query)), c, now, expiryText)
  }

  // ---------------------------------------------------------------------
  // Properties of the answers

  /** The keyword table selects the topic the chain of tests does. */
  lemma TopicChain(q: string)
    ensures TopicOf(q) == ChainTopic(q)
  {
    var r0, r1, r2, r3, r4 := TopicRules[0], TopicRules[1], TopicRules[2], TopicRules[3], TopicRules[4];
    assert TopicRules == [r0, r1, r2, r3, r4];
    Lookup5(r0, r1, r2, r3, r4, q, GeneralTopic);
    Lookup2(r3, r4, q, GeneralTopic);
    Lookup1(r4, q, GeneralTopic);
    HitsTwo("margin", "commission", MarginTopic, q);
    HitsTwo("sla", "service", ServiceTopic, q);
    HitsTwo("territory", "rights", TerritoryTopic, q);
    HitsTwo("payment", "terms", PaymentTopic, q);
    HitsTwo("expire", "renewal", ExpiryTopic, q);
  }

  /** The chain of tests answers the topic the keyword table selects. */
  lemma ResponseFollowsTopic(query: string, c: Contract, now: int, expiryText: string)
    ensures GenerateAIResponse(query, c, now, expiryText) == AnswerTo(TopicOf(ToLower(query)), c, now, expiryText)
  {
    TopicChain(ToLower(query));
  }

  /** Every answer but the general one quotes a clause. */
  lemma AnswerClause(topic: Topic, c: Contract, now: int, expiryText: string)
    ensures AnswerTo(topic, c, now, expiryText).clause.None? <==> topic == GeneralTopic
  {
  }

  /** So a reply quotes a clause exactly when the question mentions a topic. */
  lemma ClauseIffTopic(query: string, c: Contract, now: int, expiryText: string)
    ensures GenerateAIResponse(query, c, now, expiryText).clause.None? <==> TopicOf(ToLower(query)) == GeneralTopic
  {
    ResponseFollowsTopic(query, c, now, expiryText);
    AnswerClause(TopicOf(ToLower(query)), c, now, expiryText);
  }

  /** Matching is by substring and earlier topics win: a question with "sla"
      in it (such as one about "translation") is answered about service
      levels unless it mentions margin or commission. */
  lemma SlaShadows(lowerQuery: string)
    requires Contains(lowerQuery, "sla")
    requires !Contains(lowerQuery, "margin") && !Contains(lowerQuery, "commission")
    ensures TopicOf(lowerQuery) == ServiceTopic
  {
    TopicChain(lowerQuery);
  }

  /** Topic words are matched in any letter case. */
  lemma TopicIgnoresCase(query: string, c: Contract, now: int, expiryText: string)
    ensures GenerateAIResponse(ToLower(query), c, now, expiryText) == GenerateAIResponse(query, c, now, expiryText)
  {
    ToLowerIdempotent(query);
  }

  /** `head + Bold(term) + tail` includes `Bold(term)`, and so does anything appended to it. */
  lemma BoldQuoted(head: string, term: string, tail1: string, tail2: string, tail3: string)
    ensures Contains(head + Bold(term) + tail1 + tail2 + tail3, Bold(term))
  {
    ContainsEnd(head, Bold(term));
    ContainsAppend(head + Bold(term), tail1, Bold(term));
    ContainsAppend(head + Bold(term) + tail1, tail2, Bold(term));
    ContainsAppend(head + Bold(term) + tail1 + tail2, tail3, Bold(term));
  }

  /** The margin answer quotes the contract's margin in bold, "10%" when it
      states none, and its clause quotes the same margin. */
  lemma MarginQuoted(c: Contract)
    ensures Contains(MarginReply(c).content, Bold(OrElse(TermMargin(c), "10%")))
    ensures Contains(MarginReply(c).clause.value, OrElse(TermMargin(c), "10%"))
  {
    var margin := OrElse(TermMargin(c), "10%");
    BoldQuoted("Based on the " + c.series + (" agreement, " + "your current " + "commission " + "margin is "), margin,
      ". This represents ",
      if HasMarginChange(c) then ("an improvement " + "from the " + "previous version") else "the standard rate", ".");
    var head := ("Section 4.2: " + "Commission " + "Structure - " + "Distributor " + "shall receive ");
    ContainsEnd(head, margin);
    ContainsAppend(head + margin, (" margin on all " + "units sold."), margin);
  }

  /** The service answer quotes the SLA time, "24 hour" when missing; its
      clause falls back to "24 hours" instead. */
  lemma ServiceQuoted(c: Contract)
    ensures Contains(ServiceReply(c).content, Bold(OrElse(TermSla(c), "24 hour")))
    ensures Contains(ServiceReply(c).clause.value, OrElse(TermSla(c), "24 hours"))
  {
    BoldQuoted(("The service " + "level agreement " + "for ") + c.series + " specifies a ", OrElse(TermSla(c), "24 hour"),
      (" turnaround " + "time for " + "repairs and " + "replacements. " + "This is "),
      if TermSla(c) == Some("12 hours") then "faster than" else "standard compared to", " previous models.");
    var head := ("Section 7.1: " + "Service " + "Requirements - " + "All warranty " + "claims must be " + "processed " + "within ");
    ContainsEnd(head, OrElse(TermSla(c), "24 hours"));
    ContainsAppend(head + OrElse(TermSla(c), "24 hours"), ".", OrElse(TermSla(c), "24 hours"));
  }

  /** The territory answer quotes the territory, "1 state" when missing; its
      clause falls back to "designated territory" instead. */
  lemma TerritoryQuoted(c: Contract)
    ensures Contains(TerritoryReply(c).content, Bold(OrElse(TermTerritory(c), "1 state")))
    ensures Contains(TerritoryReply(c).clause.value, OrElse(TermTerritory(c), "designated territory"))
  {
    BoldQuoted(("Your " + "distribution " + "rights for ") + c.series + " cover ", OrElse(TermTerritory(c), "1 state"),
      ". ", if Exclusive(c) then ("You have " + "exclusive " + "rights in this " + "territory.") else ("This is a " + "non-exclusive " + "arrangement."), "");
    assert TerritoryReply(c).content ==
      ("Your " + "distribution " + "rights for ") + c.series + " cover " + Bold(OrElse(TermTerritory(c), "1 state")) + ". "
        + (if Exclusive(c) then ("You have " + "exclusive " + "rights in this " + "territory.") else ("This is a " + "non-exclusive " + "arrangement.")) + "";
    var head := ("Section 3.1: " + "Territory " + "Rights - " + "Distributor is " + "authorized to " + "sell in ");
    ContainsEnd(head, OrElse(TermTerritory(c), "designated territory"));
    ContainsAppend(head + OrElse(TermTerritory(c), "designated territory"), ".", OrElse(TermTerritory(c), "designated territory"));
  }

  /** The payment answer and its clause quote the payment period, "60 days" when missing. */
  lemma PaymentQuoted(c: Contract)
    ensures Contains(PaymentReply(c).content, Bold(OrElse(TermPayment(c), "60 days")))
    ensures Contains(PaymentReply(c).clause.value, OrElse(TermPayment(c), "60 days"))
  {
    var payment := OrElse(TermPayment(c), "60 days");
    BoldQuoted("Payment terms for " + c.series + " are ", payment,
      (" net. Invoices " + "are generated " + "monthly and " + "payment is " + "expected within " + "the specified " + "timeframe."), "", "");
    assert PaymentReply(c).content ==
      "Payment terms for " + c.series + " are " + Bold(payment)
        + (" net. Invoices " + "are generated " + "monthly and " + "payment is " + "expected within " + "the specified " + "timeframe.") + "" + "";
    var head := ("Section 5.3: " + "Payment Terms - " + "All invoices " + "are due ");
    ContainsEnd(head, payment);
    ContainsAppend(head + payment, " from date of issue.", payment);
  }

  /** The expiry answer names the series and shows, in bold, the whole days
      left; its clause quotes the rendered expiry date. With
      `IntToStringRoundTrip`, the bold number reads back as exactly
      `DaysUntilExpiry`. */
  lemma ExpiryQuoted(c: Contract, now: int, expiryText: string)
    ensures var days := DaysUntilExpiry(c.expiryDate, now);
            Contains(ExpiryReply(c, now, expiryText).content, Bold(IntToString(days) + " days"))
    ensures Contains(ExpiryReply(c, now, expiryText).content, c.series)
    ensures Contains(ExpiryReply(c, now, expiryText).clause.value, expiryText)
  {
    var days := DaysUntilExpiry(c.expiryDate, now);
    var warning := if days < 60 then RenewalSoon else RenewalLater;
    var head := "This " + c.series + (" agreement " + "expires in ");
    var content := ExpiryReply(c, now, expiryText).content;
    BoldQuoted(head, IntToString(days) + " days", ". ", warning, "");
    assert content == head + Bold(IntToString(days) + " days") + ". " + warning + "";
    ContainsEnd("This ", c.series);
    ContainsAppend("This " + c.series, (" agreement " + "expires in "), c.series);
    ContainsAppend(head, Bold(IntToString(days) + " days"), c.series);
    ContainsAppend(head + Bold(IntToString(days) + " days"), ". ", c.series);
    ContainsAppend(head + Bold(IntToString(days) + " days") + ". ", warning, c.series);
    var clauseHead := ("Section 12.1: " + "Term and " + "Renewal - This " + "agreement " + "expires on ");
    ContainsEnd(clauseHead, expiryText);
    ContainsAppend(clauseHead + expiryText, ".", expiryText);
  }

  /** The renewal warning is shown exactly when less than 60 whole days are
      left, that is when the contract expires within 60 days from now. */
  lemma RenewalWarning(c: Contract, now: int, expiryText: string)
    ensures var content := ExpiryReply(c, now, expiryText).content;
            && (c.expiryDate - now < 60 * DayMs ==> content[|content| - |RenewalSoon|..] == RenewalSoon)
            && (c.expiryDate - now >= 60 * DayMs ==> content[|content| - |RenewalLater|..] == RenewalLater)
    ensures DaysUntilExpiry(c.expiryDate, now) < 60 <==> c.expiryDate - now < 60 * DayMs
  {
    var days := DaysUntilExpiry(c.expiryDate, now);
    if days < 60 {
      assert (days + 1) * DayMs <= 60 * DayMs;
    } else {
      assert days * DayMs >= 60 * DayMs;
    }
  }

  // ---------------------------------------------------------------------
  // The conversation of one contract

  /** `chatMessages.filter(msg => msg.contractId === contract?.id)`. */
  function ContractMessages(messages: seq<ChatMessage>, contractId: Option<string>): (r: seq<ChatMessage>)
    ensures IsSublist(r, messages)
    ensures forall i :: 0 <= i < |r| ==> r[i].contractId == contractId
    ensures forall i :: 0 <= i < |messages| && messages[i].contractId == contractId ==> messages[i] in r
    ensures forall m :: multiset(r)[m] == if m.contractId == contractId then multiset(messages)[m] else 0
  {
    FilterIsSublist(messages, (m: ChatMessage) => m.contractId == contractId);
    FilterCounts(messages, (m: ChatMessage) => m.contractId == contractId);
    Filter(messages, (m: ChatMessage) => m.contractId == contractId)
  }

  /** A new message shows in its own contract's conversation, at the end, and
      in no other. */
  lemma ContractMessagesAppend(messages: seq<ChatMessage>, m: ChatMessage, contractId: Option<string>)
    ensures ContractMessages(messages + [m], contractId) ==
      ContractMessages(messages, contractId) + (if m.contractId == contractId then [m] else [])
  {
    var p := (x: ChatMessage) => x.contractId == contractId;
    FilterConcat(messages, [m], p);
    assert [m][1..] == [];
  }

  /** The two clock readings a new message takes: `Date.now()` for its id
      and `new Date()` for its timestamp. */
  datatype Stamp = Stamp(idAt: nat, at: nat)

  /** The question as `handleSend` records it (lines 40-46). */
  function UserMessage(input: string, c: Contract, stamp: Stamp): ChatMessage
  {
    ChatMessage("msg-" + NatToString(stamp.idAt), input, UserSender, stamp.at, Some(c.id), None)
  }

  /** The reply as the timer records it (lines 55-62). */
  function AiMessage(reply: Reply, c: Contract, stamp: Stamp): ChatMessage
  {
    ChatMessage("msg-" + NatToString(stamp.idAt), reply.content, AiSender, stamp.at, Some(c.id), reply.clause)
  }

  /** A question waiting for its reply: the timer of lines 53-65 captures the
      question as typed and the contract. */
  datatype PendingReply = PendingReply(query: string, contract: Contract)

  /** The dialog's own state: the text being typed, the typing indicator, and
      the replies whose timers have not fired yet, in the order they were set. */
  class ChatSession {
    var input: string
    var isTyping: bool
    var pending: seq<PendingReply>

    constructor()
      ensures input == "" && !isTyping && pending == []
    {
      input := "";
      isTyping := false;
      pending := [];
    }

    /** The user edits the input field. */
    method SetInput(text: string)
      modifies this
      ensures input == text && isTyping == old(isTyping) && pending == old(pending)
    {
      input := text;
    }

    /** `handleSend`: blank input or no contract does nothing; otherwise the
        question is recorded for the contract, the field is cleared, the
        typing indicator is shown and the reply is scheduled. */
    method HandleSend(store: Store, contract: Option<Contract>, stamp: Stamp)
      modifies this, store
      ensures Trim(old(input)) == [] || contract.None? ==>
        && input == old(input) && isTyping == old(isTyping) && pending == old(pending)
        && store.chatMessages == old(store.chatMessages)
      ensures !(Trim(old(input)) == [] || contract.None?) ==>
        && store.chatMessages == old(store.chatMessages) + [UserMessage(old(input), contract.value, stamp)]
        && input == "" && isTyping
        && pending == old(pending) + [PendingReply(old(input), contract.value)]
      ensures store.contracts == old(store.contracts) && store.alerts == old(store.alerts)
      ensures store.selectedContract == old(store.selectedContract)
    {
      if Trim(input) == [] || contract.None? {
        return;
      }
      var c := contract.value;
      var userMessage := UserMessage(input, c, stamp);
      store.AddChatMessage(userMessage);
      pending := pending + [PendingReply(input, c)];
      input := "";
      isTyping := true;
    }

    /** The oldest scheduled timer fires: the reply to its question is
        appended and the typing indicator is hidden. `now` is the clock
        reading the expiry answer takes, `stamp` the two the reply message
        takes after it. */
    method DeliverReply(store: Store, now: int, stamp: Stamp, expiryText: string)
      requires pending != []
      modifies this, store
      ensures var p := old(pending)[0];
              store.chatMessages == old(store.chatMessages) + [AiMessage(GenerateAIResponse(p.query, p.contract, now, expiryText), p.contract, stamp)]
      ensures pending == old(pending)[1..] && !isTyping && input == old(input)
      ensures store.contracts == old(store.contracts) && store.alerts == old(store.alerts)
      ensures store.selectedContract == old(store.selectedContract)
    {
      var p := pending[0];
      pending := pending[1..];
      isTyping := false;
      var aiResponse := GenerateAIResponse(p.query, p.contract, now, expiryText);
      var aiMessage := AiMessage(aiResponse, p.contract, stamp);
      store.AddChatMessage(aiMessage);
    }
  }

  /** A question and its answer for one contract: the two messages join
      that contract's conversation, the question first. */
  lemma ConversationGrows(before: seq<ChatMessage>, question: ChatMessage, answer: ChatMessage, contractId: string)
    requires question.contractId == Some(contractId) && answer.contractId == Some(contractId)
    ensures ContractMessages(before + [question, answer], Some(contractId)) ==
      ContractMessages(before, Some(contractId)) + [question, answer]
  {
    ContractMessagesAppend(before, question, Some(contractId));
    ContractMessagesAppend(before + [question], answer, Some(contractId));
    AppendTwo(before, question, answer);
  }

  /** A question and its answer: the question is recorded first and the
      reply after it, and the reply answers the question as typed. */
  method AskAndAnswer(session: ChatSession, store: Store, c: Contract, question: string,
                      sent: Stamp, answeredAt: int, answered: Stamp, expiryText: string)
    requires session.pending == [] && Trim(question) != []
    modifies session, store
    ensures store.chatMessages == old(store.chatMessages) + [
      UserMessage(question, c, sent),
      AiMessage(GenerateAIResponse(question, c, answeredAt, expiryText), c, answered)]
    ensures session.pending == [] && !session.isTyping && session.input == ""
  {
    session.SetInput(question);
    session.HandleSend(store, Some(c), sent);
    session.DeliverReply(store, answeredAt, answered, expiryText);
    AppendTwo(old(store.chatMessages), UserMessage(question, c, sent),
      AiMessage(GenerateAIResponse(question, c, answeredAt, expiryText), c, answered));
  }
}
