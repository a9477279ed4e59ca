/**
 * The conversation orchestrator of `app/services/groq_service.py`.
 *
 * `GroqService` keeps one process-wide transcript. `Chat` builds a system prompt
 * from a fixed role text, optional knowledge-base text and optional customer
 * facts, records the user turn, asks the completion service for a reply, records
 * the reply and keeps only the ten most recent turns. The completion service and
 * the customer/order tables are parameters: a function from request to reply,
 * and the two tables as sequences in query order.
 */
module Groq {
  import opened Wrappers
  import opened Text

  // ---------------------------------------------------------------------------
  // Records

  datatype Role = System | User | Assistant

  /** One entry of the transcript, `{"role": ..., "content": ...}`. */
  datatype Message = Message(role: Role, content: string)

  datatype Customer = Customer(id: int, name: string, email: string)

  /** An order row; `amount` is kept as the text Python's f-string prints for it. */
  datatype Order = Order(customerId: int, orderNumber: string, productName: string, amount: string, status: string)

  /** The `customers` and `orders` tables, each in the order the database returns its rows. */
  datatype Database = Database(customers: seq<Customer>, orders: seq<Order>)

  /** The arguments of `client.chat.completions.create`. */
  datatype Request = Request(model: string, messages: seq<Message>, temperature: real, maxTokens: nat)

  /** What the completion call gives back: the contents of its choices, or an exception. */
  datatype Reply = Choices(contents: seq<string>) | Failed

  /** A reply from which `response.choices[0].message.content` can be read. */
  predicate Answered(reply: Reply) {
    reply.Choices? && |reply.contents| > 0
  }

  const DEFAULT_MODEL := "llama-3.3-70b-versatile"
  const TEMPERATURE: real := 0.7
  const MAX_TOKENS: nat := 500
  /** The number of transcript entries kept after a successful exchange. */
  const HISTORY_LIMIT: nat := 10
  const APOLOGY := "I apologize, but I'm having trouble processing your request. Please try again."

  // ---------------------------------------------------------------------------
  // Table lookups

  /** The index of the first element satisfying `p`, as `.filter_by(...).first()` picks it. */
  function FirstIndex<T>(s: seq<T>, p: T -> bool): (r: Option<nat>)
    ensures r.Some? ==> r.value < |s| && p(s[r.value])
    ensures r.Some? ==> forall j :: 0 <= j < r.value ==> !p(s[j])
    ensures r.None? ==> forall j :: 0 <= j < |s| ==> !p(s[j])
  {
    if s == [] then None
    else if p(s[0]) then Some(0)
    else match FirstIndex(s[1..], p)
      case None => None
      case Some(i) => Some(i + 1)
  }

  function First<T>(s: seq<T>, p: T -> bool): (r: Option<T>)
    ensures r.Some? ==> r.value in s && p(r.value)
    ensures r.None? ==> forall x :: x in s ==> !p(x)
  {
    match FirstIndex(s, p)
    case None => None
    case Some(i) => Some(s[i])
  }

  /** `Customer.query.filter_by(email=email).first()` */
  function CustomerByEmail(db: Database, email: string): Option<Customer> {
    First(db.customers, (c: Customer) => c.email == email)
  }

  /** `Customer.query.get(id)` */
  function CustomerById(db: Database, id: int): Option<Customer> {
    First(db.customers, (c: Customer) => c.id == id)
  }

  /** `Order.query.filter_by(order_number=number).first()` */
  function OrderByNumber(db: Database, number: string): Option<Order> {
    First(db.orders, (o: Order) => o.orderNumber == number)
  }

  /** `Order.query.filter_by(customer_id=id).all()`: the customer's orders, in table order. */
  function OrdersOf(orders: seq<Order>, customerId: int): (r: seq<Order>)
    ensures forall o :: o in r <==> o in orders && o.customerId == customerId
  {
    if orders == [] then []
    else (if orders[0].customerId == customerId then [orders[0]] else []) + OrdersOf(orders[1..], customerId)
  }

  // ---------------------------------------------------------------------------
  // Customer context, as a list of lines

  /** `context` after `context += line + "\n"` for each of `lines` in turn. */
  function Appended(context: string, lines: seq<string>): (r: string)
    ensures |r| >= |context| + |lines|
    ensures r[..|context|] == context
  {
    if lines == [] then context
    else Appended(context, lines[..|lines| - 1]) + (lines[|lines| - 1] + "\n")
  }

  lemma AppendedSnoc(context: string, lines: seq<string>, line: string)
    ensures Appended(context, lines + [line]) == Appended(context, lines) + (line + "\n")
  {
    assert (lines + [line])[..|lines|] == lines;
  }

  /** Appending the first `k + 1` lines is appending the first `k`, then line `k`. */
  lemma AppendedStep(context: string, lines: seq<string>, k: nat)
    requires k < |lines|
    ensures Appended(context, lines[..k]) + (lines[k] + "\n") == Appended(context, lines[..k + 1])
  {
    AppendedSnoc(context, lines[..k], lines[k]);
    assert lines[..k] + [lines[k]] == lines[..k + 1];
  }

  /** One f-string that opens with a newline writes an empty line, then its text. */
  lemma AppendedBlankThen(context: string, line: string)
    ensures Appended(context, ["", line]) == context + ("\n" + line + "\n")
  {
    AppendedSnoc(context, [], "");
    AppendedSnoc(context, [""], line);
    assert [] + [""] == [""] && [""] + [line] == ["", line];
  }

  /** Writing two runs of lines one after the other is writing their concatenation. */
  lemma {:induction false} AppendedConcat(context: string, a: seq<string>, b: seq<string>)
    ensures Appended(context, a + b) == Appended(Appended(context, a), b)
    decreases |b|
  {
    if b == [] {
      assert a + b == a;
    } else {
      var front := b[..|b| - 1];
      assert (a + b)[..|a + b| - 1] == a + front;
      assert (a + b)[|a + b| - 1] == b[|b| - 1];
      AppendedConcat(context, a, front);
    }
  }

  const RECENT_ORDERS := "Recent Orders:"

  function CustomerHeaderLine(c: Customer): string {
    "Customer: " + c.name + " (" + c.email + ")"
  }

  function OrderSummaryLine(o: Order): string {
    "- Order #" + o.orderNumber + ": " + o.productName + " ($" + o.amount + ") - Status: " + o.status
  }

  function OrderNumberLine(o: Order): string { "Order #" + o.orderNumber }
  function CustomerNameLine(c: Customer): string { "Customer: " + c.name }
  function ProductLine(o: Order): string { "Product: " + o.productName }
  function AmountLine(o: Order): string { "Amount: $" + o.amount }
  function StatusLine(o: Order): string { "Status: " + o.status }

  /** One summary line per order, in the order given. */
  function OrderSummaries(orders: seq<Order>): (r: seq<string>)
    ensures |r| == |orders|
    ensures forall i :: 0 <= i < |orders| ==> r[i] == OrderSummaryLine(orders[i])
  {
    if orders == [] then []
    else OrderSummaries(orders[..|orders| - 1]) + [OrderSummaryLine(orders[|orders| - 1])]
  }

  lemma SummariesStep(context: string, orders: seq<Order>, i: nat)
    requires i < |orders|
    ensures Appended(context, OrderSummaries(orders[..i])) + (OrderSummaryLine(orders[i]) + "\n")
            == Appended(context, OrderSummaries(orders[..i + 1]))
  {
    assert orders[..i + 1][..i] == orders[..i];
    AppendedSnoc(context, OrderSummaries(orders[..i]), OrderSummaryLine(orders[i]));
  }

  /**
   * The block written for a customer found by e-mail: a blank line, the customer
   * line, then, only when there are orders, a header and one line per order.
   */
  function CustomerBlock(c: Customer, orders: seq<Order>): (ls: seq<string>)
    ensures |ls| == if orders == [] then 2 else 3 + |orders|
    ensures ls[0] == "" && ls[1] == CustomerHeaderLine(c)
    ensures orders != [] ==> ls[2] == RECENT_ORDERS
    ensures orders == [] ==> RECENT_ORDERS !in ls
    ensures forall i :: 0 <= i < |orders| ==> ls[3 + i] == OrderSummaryLine(orders[i])
  {
    assert CustomerHeaderLine(c)[0] == 'C' != RECENT_ORDERS[0];
    if orders == [] then ["", CustomerHeaderLine(c)]
    else ["", CustomerHeaderLine(c), RECENT_ORDERS] + OrderSummaries(orders)
  }

  /** The block written for an order found by its number, naming the order's customer. */
  function OrderBlock(o: Order, c: Customer): (ls: seq<string>)
    ensures |ls| == 6 && ls[0] == ""
  {
    ["", OrderNumberLine(o), CustomerNameLine(c), ProductLine(o), AmountLine(o), StatusLine(o)]
  }

  /** The lines contributed by the `customer_email` argument. */
  function EmailLines(db: Database, email: Option<string>): (ls: seq<string>)
    ensures ls == [] <==> !(Truthy(email) && CustomerByEmail(db, email.value).Some?)
  {
    if Truthy(email) then
      match CustomerByEmail(db, email.value)
      case None => []
      case Some(c) => CustomerBlock(c, OrdersOf(db.orders, c.id))
    else []
  }

  /**
   * The lines contributed by the `order_number` argument. An order whose customer
   * row is missing makes `customer.name` raise.
   */
  function OrderNumberLines(db: Database, number: Option<string>): (r: Result<seq<string>>)
    ensures r.Raised? <==>
      Truthy(number) && OrderByNumber(db, number.value).Some? &&
      CustomerById(db, OrderByNumber(db, number.value).value.customerId).None?
    ensures r.Ok? ==> (r.value == [] <==> !(Truthy(number) && OrderByNumber(db, number.value).Some?))
  {
    if Truthy(number) then
      match OrderByNumber(db, number.value)
      case None => Ok([])
      case Some(o) =>
        match CustomerById(db, o.customerId)
        case None => Raised
        case Some(c) => Ok(OrderBlock(o, c))
    else Ok([])
  }

  /** All the context lines: the e-mail block first, then the order-number block. */
  function ContextLines(db: Database, email: Option<string>, number: Option<string>): Result<seq<string>> {
    match OrderNumberLines(db, number)
    case Raised => Raised
    case Ok(ls) => Ok(EmailLines(db, email) + ls)
  }

  /** The string `get_customer_context` returns, or the exception it raises. */
  function CustomerContext(db: Database, email: Option<string>, number: Option<string>): Result<string> {
    match ContextLines(db, email, number)
    case Raised => Raised
    case Ok(ls) => Ok(Appended("", ls))
  }

  /** No matching customer and no matching order, the only way to get the empty context. */
  predicate MatchesNothing(db: Database, email: Option<string>, number: Option<string>) {
    && !(Truthy(email) && CustomerByEmail(db, email.value).Some?)
    && !(Truthy(number) && OrderByNumber(db, number.value).Some?)
  }

  /** The context is "" exactly when neither the e-mail nor the order number matches a row. */
  lemma CustomerContextEmptyIff(db: Database, email: Option<string>, number: Option<string>)
    ensures CustomerContext(db, email, number) == Ok("") <==> MatchesNothing(db, email, number)
  {
    var r := OrderNumberLines(db, number);
    if r.Ok? {
      var ls := EmailLines(db, email) + r.value;
      assert Appended("", ls) == "" ==> |ls| == 0;
    }
  }

  /** When both arguments match, the e-mail block is written before the order block. */
  lemma EmailBlockFirst(db: Database, email: Option<string>, number: Option<string>)
    requires CustomerContext(db, email, number).Ok?
    ensures Appended("", EmailLines(db, email)) <= CustomerContext(db, email, number).value
  {
    AppendedConcat("", EmailLines(db, email), OrderNumberLines(db, number).value);
  }

  // ---------------------------------------------------------------------------
  // System prompt

  const BASE_PROMPT := "You are a helpful customer support agent for an e-commerce company. You help customers with:\n- Order status inquiries\n- Product information\n- Returns and refunds\n- General questions\nBe friendly, concise, and professional.\n"
  const KNOWLEDGE_INTRO := "\nUse this knowledge base information to answer:\n"
  const KNOWLEDGE_OUTRO := "\n\nAlways cite your source when using this information.\nExample: According to our policy...\n"
  const CUSTOMER_INTRO := "\n\nCustomer Information:\n"

  /** The knowledge-base section: present exactly when `rag_context` is truthy, with the text between its intro and its closing advice. */
  function KnowledgeSection(rag: Option<string>): (s: string)
    ensures s == "" <==> !Truthy(rag)
    ensures Truthy(rag) ==>
      StartsWith(s, KNOWLEDGE_INTRO) && OccursAt(s, rag.value, |KNOWLEDGE_INTRO|) && EndsWith(s, KNOWLEDGE_OUTRO)
  {
    if Truthy(rag) then
      ThreeParts(KNOWLEDGE_INTRO, rag.value, KNOWLEDGE_OUTRO);
      KNOWLEDGE_INTRO + rag.value + KNOWLEDGE_OUTRO
    else ""
  }

  /** The customer section: present exactly when the context is non-empty, and ending with it. */
  function CustomerSection(context: string): (s: string)
    ensures s == "" <==> context == ""
    ensures context != "" ==> StartsWith(s, CUSTOMER_INTRO) && EndsWith(s, context)
  {
    if context != "" then
      ThreeParts(CUSTOMER_INTRO, context, "");
      assert CUSTOMER_INTRO + context + "" == CUSTOMER_INTRO + context;
      CUSTOMER_INTRO + context
    else ""
  }

  /** The system prompt: the role text, then the knowledge-base section, then the customer section. */
  function SystemPrompt(rag: Option<string>, context: string): string {
    BASE_PROMPT + KnowledgeSection(rag) + CustomerSection(context)
  }

  /**
   * The role text always opens the prompt; the knowledge-base section follows it
   * when `rag_context` is truthy; the customer section closes it when the context
   * is non-empty; and with neither the prompt is the role text alone.
   */
  lemma SystemPromptLayout(rag: Option<string>, context: string)
    ensures StartsWith(SystemPrompt(rag, context), BASE_PROMPT)
    ensures SystemPrompt(rag, context) == BASE_PROMPT <==> !Truthy(rag) && context == ""
    ensures Truthy(rag) ==> OccursAt(SystemPrompt(rag, context), KnowledgeSection(rag), |BASE_PROMPT|)
    ensures context != "" ==> EndsWith(SystemPrompt(rag, context), CustomerSection(context))
    ensures !Truthy(rag) ==> SystemPrompt(rag, context) == BASE_PROMPT + CustomerSection(context)
    ensures context == "" ==> SystemPrompt(rag, context) == BASE_PROMPT + KnowledgeSection(rag)
  {
    var k, c := KnowledgeSection(rag), CustomerSection(context);
    ThreeParts(BASE_PROMPT, k, c);
    assert |BASE_PROMPT + k + c| == |BASE_PROMPT| + |k| + |c|;
    if !Truthy(rag) {
      assert BASE_PROMPT + k == BASE_PROMPT;
    }
    if context == "" {
      assert BASE_PROMPT + k + c == BASE_PROMPT + k;
    }
  }

  // ---------------------------------------------------------------------------
  // One exchange

  /** The transcript cut to its most recent `HISTORY_LIMIT` entries. */
  function Window(h: seq<Message>): (w: seq<Message>)
    ensures |w| == if |h| > HISTORY_LIMIT then HISTORY_LIMIT else |h|
    ensures w == h[|h| - |w|..]
  {
    if |h| > HISTORY_LIMIT then h[|h| - HISTORY_LIMIT..] else h
  }

  /** The transcript after a successful exchange of `userMessage` and `reply`. */
  function Exchange(h: seq<Message>, userMessage: string, reply: string): seq<Message> {
    Window(h + [Message(User, userMessage), Message(Assistant, reply)])
  }

  /** The completion request: the system prompt, then the whole transcript including the new user turn. */
  function ChatRequest(model: string, history: seq<Message>, userMessage: string, systemPrompt: string): (r: Request)
    ensures r.model == model && r.temperature == TEMPERATURE && r.maxTokens == MAX_TOKENS
    ensures |r.messages| == |history| + 2
    ensures r.messages[0] == Message(System, systemPrompt)
    ensures r.messages[1..] == history + [Message(User, userMessage)]
  {
    Request(model, [Message(System, systemPrompt)] + history + [Message(User, userMessage)], TEMPERATURE, MAX_TOKENS)
  }

  datatype ChatOutcome = ChatOutcome(response: string, history: seq<Message>)

  /** What `chat` returns and what the transcript becomes, once the customer context is known. */
  function ChatStep(model: string, history: seq<Message>, userMessage: string, context: Result<string>,
                    rag: Option<string>, complete: Request -> Reply): ChatOutcome
  {
    match context
    case Raised => ChatOutcome(APOLOGY, history)
    case Ok(c) =>
      var reply := complete(ChatRequest(model, history, userMessage, SystemPrompt(rag, c)));
      if Answered(reply) then ChatOutcome(reply.contents[0], Exchange(history, userMessage, reply.contents[0]))
      else ChatOutcome(APOLOGY, history + [Message(User, userMessage)])
  }

  /**
   * The three outcomes of `chat`: a failed context lookup records nothing; a failed
   * completion call keeps the user turn and does not cut the transcript; a reply is
   * the first choice, recorded right after the user turn, with at most ten entries kept.
   */
  lemma ChatStepOutcomes(model: string, history: seq<Message>, userMessage: string, context: Result<string>,
                         rag: Option<string>, complete: Request -> Reply)
    ensures var o := ChatStep(model, history, userMessage, context, rag, complete);
      && (context.Raised? ==> o == ChatOutcome(APOLOGY, history))
      && (context.Ok? && !Answered(complete(ChatRequest(model, history, userMessage, SystemPrompt(rag, context.value)))) ==>
            o == ChatOutcome(APOLOGY, history + [Message(User, userMessage)]))
      && (context.Ok? && Answered(complete(ChatRequest(model, history, userMessage, SystemPrompt(rag, context.value)))) ==>
            && o.response == complete(ChatRequest(model, history, userMessage, SystemPrompt(rag, context.value))).contents[0]
            && 2 <= |o.history| <= HISTORY_LIMIT
            && o.history[|o.history| - 2..] == [Message(User, userMessage), Message(Assistant, o.response)])
  {
    var o := ChatStep(model, history, userMessage, context, rag, complete);
    if context.Ok? && Answered(complete(ChatRequest(model, history, userMessage, SystemPrompt(rag, context.value)))) {
      var full := history + [Message(User, userMessage), Message(Assistant, o.response)];
      assert o.history[|o.history| - 2..] == full[|full| - 2..];
    }
  }

  // ---------------------------------------------------------------------------
  // Several exchanges

  /** The turns a run of successful exchanges appends, in order. */
  function Turns(exchanges: seq<(string, string)>): (r: seq<Message>)
    ensures |r| == 2 * |exchanges|
  {
    if exchanges == [] then []
    else
      var last := exchanges[|exchanges| - 1];
      Turns(exchanges[..|exchanges| - 1]) + [Message(User, last.0), Message(Assistant, last.1)]
  }

  /** The transcript after a run of successful exchanges. */
  function Replay(h: seq<Message>, exchanges: seq<(string, string)>): seq<Message> {
    if exchanges == [] then h
    else
      var last := exchanges[|exchanges| - 1];
      Exchange(Replay(h, exchanges[..|exchanges| - 1]), last.0, last.1)
  }

  /** Cutting early does not change what a later cut keeps. */
  lemma WindowOfAppend(a: seq<Message>, b: seq<Message>)
    ensures Window(Window(a) + b) == Window(a + b)
  {
    var wa := Window(a);
    var left, right := Window(wa + b), Window(a + b);
    assert |left| == |right|;
    forall i | 0 <= i < |left| ensures left[i] == right[i] {
      var k := |b| - |left| + i;
      if k >= 0 {
        assert left[i] == b[k] == right[i];
      } else {
        assert left[i] == wa[|wa| + k] == a[|a| + k] == right[i];
      }
    }
  }

  /**
   * After any run of successful exchanges, the transcript holds exactly the most
   * recent ten entries of everything recorded, in order.
   */
  lemma {:induction false} ReplayKeepsLatest(h: seq<Message>, exchanges: seq<(string, string)>)
    requires |h| <= HISTORY_LIMIT || exchanges != []
    ensures Replay(h, exchanges) == Window(h + Turns(exchanges))
  {
    if exchanges != [] {
      var front := exchanges[..|exchanges| - 1];
      var last := exchanges[|exchanges| - 1];
      var pair := [Message(User, last.0), Message(Assistant, last.1)];
      assert h + Turns(exchanges) == (h + Turns(front)) + pair;
      if front != [] {
        ReplayKeepsLatest(h, front);
        WindowOfAppend(h + Turns(front), pair);
      }
    }
  }

  /** Lines 18-23 of `get_customer_context`: the customer line, then the orders, appended to `context`. */
  method WriteCustomerBlock(context: string, c: Customer, orders: seq<Order>) returns (r: string)
    ensures r == Appended(context, CustomerBlock(c, orders))
  {
    AppendedBlankThen(context, CustomerHeaderLine(c));
    r := context + ("\n" + CustomerHeaderLine(c) + "\n");
    if orders != [] {
      ghost var block := ["", CustomerHeaderLine(c)];
      AppendedSnoc(context, block, RECENT_ORDERS);
      r := r + (RECENT_ORDERS + "\n");
      block := block + [RECENT_ORDERS];
      ghost var head := r;
      var i := 0;
      while i < |orders|
        invariant 0 <= i <= |orders|
        invariant r == Appended(head, OrderSummaries(orders[..i]))
      {
        SummariesStep(head, orders, i);
        r := r + (OrderSummaryLine(orders[i]) + "\n");
        i := i + 1;
      }
      assert orders[..|orders|] == orders;
      assert block == ["", CustomerHeaderLine(c), RECENT_ORDERS];
      AppendedConcat(context, block, OrderSummaries(orders));
    }
  }

  /** Lines 29-33 of `get_customer_context`: the order block appended to `context`. */
  method WriteOrderBlock(context: string, o: Order, c: Customer) returns (r: string)
    ensures r == Appended(context, OrderBlock(o, c))
  {
    ghost var ls := OrderBlock(o, c);
    AppendedBlankThen(context, OrderNumberLine(o));
    assert ls[..2] == ["", OrderNumberLine(o)];
    r := context + ("\n" + OrderNumberLine(o) + "\n");
    AppendedStep(context, ls, 2);
    r := r + (CustomerNameLine(c) + "\n");
    AppendedStep(context, ls, 3);
    r := r + (ProductLine(o) + "\n");
    AppendedStep(context, ls, 4);
    r := r + (AmountLine(o) + "\n");
    AppendedStep(context, ls, 5);
    r := r + (StatusLine(o) + "\n");
    assert ls[..6] == ls;
  }

  // ---------------------------------------------------------------------------
  // The service

  class GroqService {
    const model: string
    var conversationHistory: seq<Message>

    constructor (model: string := DEFAULT_MODEL)
      ensures this.model == model && conversationHistory == []
    {
      this.model := model;
      conversationHistory := [];
    }

    /** `get_customer_context`: the context text, accumulated line by line. */
    method GetCustomerContext(db: Database, customerEmail: Option<string>, orderNumber: Option<string>)
      returns (r: Result<string>)
      ensures r == CustomerContext(db, customerEmail, orderNumber)
    {
      var context := "";
      if Truthy(customerEmail) {
        var customer := CustomerByEmail(db, customerEmail.value);
        if customer.Some? {
          context := WriteCustomerBlock(context, customer.value, OrdersOf(db.orders, customer.value.id));
        }
      }
      assert context == Appended("", EmailLines(db, customerEmail));
      if Truthy(orderNumber) {
        var order := OrderByNumber(db, orderNumber.value);
        if order.Some? {
          var customer := CustomerById(db, order.value.customerId);
          if customer.None? {
            // `customer.name` raises; the text written so far is discarded
            return Raised;
          }
          context := WriteOrderBlock(context, order.value, customer.value);
          AppendedConcat("", EmailLines(db, customerEmail), OrderBlock(order.value, customer.value));
          return Ok(context);
        }
      }
      assert EmailLines(db, customerEmail) + [] == EmailLines(db, customerEmail);
      return Ok(context);
    }

    method Chat(userMessage: string, customerEmail: Option<string>, orderNumber: Option<string>,
                ragContext: Option<string>, db: Database, complete: Request -> Reply)
      returns (response: string)
      modifies this
      ensures var o := ChatStep(model, old(conversationHistory), userMessage,
                                CustomerContext(db, customerEmail, orderNumber), ragContext, complete);
              response == o.response && conversationHistory == o.history
    {
      var dbContext := GetCustomerContext(db, customerEmail, orderNumber);
      if dbContext.Raised? {
        return APOLOGY;
      }
      response := Respond(userMessage, dbContext.value, ragContext, complete);
    }

    method Respond(userMessage: string, dbContext: string, ragContext: Option<string>, complete: Request -> Reply)
      returns (response: string)
      modifies this
      ensures var o := ChatStep(model, old(conversationHistory), userMessage, Ok(dbContext), ragContext, complete);
              response == o.response && conversationHistory == o.history
    {
      ghost var before := conversationHistory;
      var systemPrompt := SystemPrompt(ragContext, dbContext);
      conversationHistory := conversationHistory + [Message(User, userMessage)];
      var messages := [Message(System, systemPrompt)] + conversationHistory;
      var request := Request(model, messages, TEMPERATURE, MAX_TOKENS);
      assert request == ChatRequest(model, before, userMessage, systemPrompt);
      var reply := complete(request);
      if !Answered(reply) {
        return APOLOGY;
      }
      var assistantMessage := reply.contents[0];
      conversationHistory := conversationHistory + [Message(Assistant, assistantMessage)];
      ghost var full := conversationHistory;
      assert full == before + [Message(User, userMessage), Message(Assistant, assistantMessage)];
      if |conversationHistory| > HISTORY_LIMIT {
        conversationHistory := conversationHistory[|conversationHistory| - HISTORY_LIMIT..];
      }
      assert conversationHistory == Exchange(before, userMessage, assistantMessage);
      return assistantMessage;
    }

    /** `reset_conversation`: the transcript is empty whatever it held, so a second reset changes nothing. */
    method ResetConversation()
      modifies this
      ensures conversationHistory == []
    {
      conversationHistory := [];
    }
  }
}
