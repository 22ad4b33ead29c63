/** Billing: reusing a company's Stripe customer, recording a new subscription, and the
    webhook handlers that move a company's subscription status. Stripe itself is an oracle:
    the ids and objects it returns are parameters, and whether a secret key was configured
    is the flag `configured`. */
module Billing {
  import opened Common

  /** Message of the database's unique-constraint violation. */
  const SubscriptionTaken := "Unique constraint failed on the fields: (`stripeSubscriptionId`)"

  datatype Plan = Starter | Growth | Enterprise

  /** `mapStripePlanToDbPlan`: the first of "starter", "growth", "enterprise" that the price
      id contains, in that order; Starter when it contains none. */
  function MapStripePlanToDbPlan(planId: string): (p: Plan)
    ensures Contains(planId, "starter") ==> p == Starter
    ensures p == Growth <==> !Contains(planId, "starter") && Contains(planId, "growth")
    ensures p == Enterprise <==>
              !Contains(planId, "starter") && !Contains(planId, "growth") && Contains(planId, "enterprise")
    ensures !Contains(planId, "growth") && !Contains(planId, "enterprise") ==> p == Starter
  {
    if Contains(planId, "starter") then Starter
    else if Contains(planId, "growth") then Growth
    else if Contains(planId, "enterprise") then Enterprise
    else Starter
  }

  /** The billing columns of a company row. */
  datatype Company = Company(
    stripeCustomerId: Option<string>,
    stripeSubscriptionId: Option<string>,
    subscriptionStatus: string)

  /** A subscription row; period bounds in milliseconds. */
  datatype SubscriptionRow = SubscriptionRow(
    id: Id,
    companyId: Id,
    stripeSubscriptionId: string,
    plan: Plan,
    status: string,
    currentPeriodStart: int,
    currentPeriodEnd: int)

  /** Companies by id; subscriptions by their unique Stripe subscription id. */
  datatype BillingDb = BillingDb(
    companies: map<Id, Company>,
    subscriptions: map<string, SubscriptionRow>,
    nextId: Id)

  /** Each subscription is filed under its own Stripe id, belongs to an existing company
      (the foreign key), and has an id below the counter. */
  ghost predicate ValidDb(db: BillingDb) {
    forall k :: k in db.subscriptions ==>
      db.subscriptions[k].stripeSubscriptionId == k &&
      db.subscriptions[k].companyId in db.companies &&
      db.subscriptions[k].id < db.nextId
  }

  /** What an operation returns, and the tables after it. */
  datatype Step<T> = Step(result: Result<T>, db: BillingDb)

  const NotConfigured: Error := BadRequest("Stripe is not configured. Please set STRIPE_SECRET_KEY.")

  /** The fields of an event's `data.object` the handlers read. For an invoice, `subscription`
      is its subscription id (an expanded subscription object stands for its id); for a
      subscription, `id`, `status` and the period bounds in seconds. */
  datatype StripeObject = StripeObject(
    id: string,
    subscription: Option<string>,
    status: string,
    currentPeriodStart: int,
    currentPeriodEnd: int)

  datatype Event = Event(eventType: string, data: StripeObject)

  /** The four event types `handleWebhook` acts on. */
  predicate Handled(t: string) {
    t == "invoice.paid" || t == "invoice.payment_failed" ||
    t == "customer.subscription.deleted" || t == "customer.subscription.updated"
  }

  predicate IsInvoiceEvent(t: string) {
    t == "invoice.paid" || t == "invoice.payment_failed"
  }

  /** The stored subscription an event is about, if any: the invoice's subscription (when
      set) or the subscription object itself. */
  function Subject(db: BillingDb, e: Event): (r: Option<SubscriptionRow>)
    ensures r.Some? && IsInvoiceEvent(e.eventType) ==>
              e.data.subscription.Some? && e.data.subscription.value in db.subscriptions &&
              r.value == db.subscriptions[e.data.subscription.value]
    ensures r.Some? && !IsInvoiceEvent(e.eventType) ==>
              e.data.id in db.subscriptions && r.value == db.subscriptions[e.data.id]
    ensures IsInvoiceEvent(e.eventType) ==>
              (r.Some? <==> Given(e.data.subscription) && e.data.subscription.value in db.subscriptions)
    ensures !IsInvoiceEvent(e.eventType) ==> (r.Some? <==> e.data.id in db.subscriptions)
  {
    if IsInvoiceEvent(e.eventType) then
      if Given(e.data.subscription) && e.data.subscription.value in db.subscriptions
      then Some(db.subscriptions[e.data.subscription.value]) else None
    else if e.data.id in db.subscriptions then Some(db.subscriptions[e.data.id])
    else None
  }

  /** The company status each handled event writes. */
  function StatusAfter(e: Event): string {
    match e.eventType
    case "invoice.paid" => "active"
    case "invoice.payment_failed" => "past_due"
    case "customer.subscription.deleted" => "canceled"
    case _ => e.data.status
  }

  /** `prisma.company.update` of the status (and, when `clearSubscription`, of the
      subscription id): fails like Prisma when the row does not exist. */
  function SetCompanyStatus(db: BillingDb, id: Id, status: string, clearSubscription: bool): (r: Step<()>)
    ensures r.result.Ok? <==> id in db.companies
    ensures r.result.Err? ==> r.db == db
    ensures r.result.Ok? ==>
              r.db == db.(companies := db.companies[id := db.companies[id].(
                subscriptionStatus := status,
                stripeSubscriptionId := if clearSubscription then None else db.companies[id].stripeSubscriptionId)])
  {
    if id !in db.companies then Step(Err(Internal("Record to update not found")), db)
    else
      var c := db.companies[id];
      var c' := c.(subscriptionStatus := status,
                   stripeSubscriptionId := if clearSubscription then None else c.stripeSubscriptionId);
      Step(Ok(()), db.(companies := db.companies[id := c']))
  }

  /** `handleSubscriptionUpdated`'s first write: the stored row takes Stripe's status and
      period bounds, converted from seconds to milliseconds. */
  function CopyFromStripe(row: SubscriptionRow, s: StripeObject): SubscriptionRow {
    row.(status := s.status,
         currentPeriodStart := s.currentPeriodStart * 1000,
         currentPeriodEnd := s.currentPeriodEnd * 1000)
  }

  /** `handleWebhook`: acts on the four handled types when their subscription is stored,
      and otherwise changes nothing. */
  function HandleWebhookSpec(configured: bool, db: BillingDb, e: Event): (r: Step<()>)
    ensures !configured ==> r == Step(Err(NotConfigured), db)
    ensures configured && !Handled(e.eventType) ==> r == Step(Ok(()), db)
    ensures configured && Subject(db, e).None? ==> r == Step(Ok(()), db)
    ensures r.db.nextId == db.nextId
    ensures r.db.companies.Keys == db.companies.Keys && r.db.subscriptions.Keys == db.subscriptions.Keys
    ensures forall id :: id in db.companies && (Subject(db, e).None? || id != Subject(db, e).value.companyId)
              ==> r.db.companies[id] == db.companies[id]
    ensures ValidDb(db) ==> (r.result.Ok? <==> configured) && ValidDb(r.db)
    ensures configured && Handled(e.eventType) && Subject(db, e).Some? && r.result.Ok? ==>
              var cid := Subject(db, e).value.companyId;
              cid in r.db.companies && r.db.companies[cid].subscriptionStatus == StatusAfter(e) &&
              (e.eventType == "customer.subscription.deleted" ==> r.db.companies[cid].stripeSubscriptionId == None) &&
              (e.eventType != "customer.subscription.deleted" ==>
                 r.db.companies[cid].stripeSubscriptionId == db.companies[cid].stripeSubscriptionId)
    ensures e.eventType == "customer.subscription.updated" && configured && Subject(db, e).Some? ==>
              r.db.subscriptions[e.data.id] == CopyFromStripe(db.subscriptions[e.data.id], e.data)
    ensures e.eventType != "customer.subscription.updated" ==> r.db.subscriptions == db.subscriptions
    ensures forall k :: k in db.subscriptions && k != e.data.id ==> r.db.subscriptions[k] == db.subscriptions[k]
  {
    if !configured then Step(Err(NotConfigured), db)
    else if !Handled(e.eventType) || Subject(db, e).None? then Step(Ok(()), db)
    else
      var row := Subject(db, e).value;
      if e.eventType == "customer.subscription.updated" then
        var db1 := db.(subscriptions := db.subscriptions[e.data.id := CopyFromStripe(row, e.data)]);
        SetCompanyStatus(db1, row.companyId, e.data.status, false)
      else
        SetCompanyStatus(db, row.companyId, StatusAfter(e), e.eventType == "customer.subscription.deleted")
  }

  /** Stripe redelivers webhooks: handling the same event a second time changes nothing more. */
  lemma WebhookRedeliveryIsHarmless(configured: bool, db: BillingDb, e: Event)
    ensures var once := HandleWebhookSpec(configured, db, e);
            HandleWebhookSpec(configured, once.db, e) == once
  {
    var once := HandleWebhookSpec(configured, db, e);
    if configured && Handled(e.eventType) && Subject(db, e).Some? {
      var row := Subject(db, e).value;
      assert Subject(once.db, e).Some?;
      if e.eventType == "customer.subscription.updated" {
        assert once.db.subscriptions[e.data.id] == CopyFromStripe(row, e.data);
        assert Subject(once.db, e).value == CopyFromStripe(row, e.data);
        assert CopyFromStripe(CopyFromStripe(row, e.data), e.data) == CopyFromStripe(row, e.data);
      } else {
        assert Subject(once.db, e).value == row;
      }
    }
  }

  datatype CustomerRef = CustomerRef(customerId: string, existing: bool)

  /** `createCustomer`: a company that already has a Stripe customer keeps it; otherwise the
      customer Stripe creates (`newCustomerId`) is stored on the company. */
  function CreateCustomerSpec(configured: bool, db: BillingDb, companyId: Id, newCustomerId: string): (r: Step<CustomerRef>)
    ensures !configured ==> r == Step(Err(NotConfigured), db)
    ensures configured && companyId !in db.companies ==> r == Step(Err(BadRequest("Company not found")), db)
    ensures configured && companyId in db.companies && Given(db.companies[companyId].stripeCustomerId) ==>
              r == Step(Ok(CustomerRef(db.companies[companyId].stripeCustomerId.value, true)), db)
    ensures r.result.Ok? <==> configured && companyId in db.companies
    ensures r.result.Ok? && !r.result.value.existing ==>
              r.result.value.customerId == newCustomerId &&
              r.db == db.(companies := db.companies[companyId := db.companies[companyId].(stripeCustomerId := Some(newCustomerId))])
    ensures r.result.Ok? ==>
              companyId in r.db.companies && r.db.companies[companyId].stripeCustomerId == Some(r.result.value.customerId)
    ensures r.db.subscriptions == db.subscriptions && r.db.nextId == db.nextId
  {
    if !configured then Step(Err(NotConfigured), db)
    else if companyId !in db.companies then Step(Err(BadRequest("Company not found")), db)
    else
      var c := db.companies[companyId];
      if Given(c.stripeCustomerId) then Step(Ok(CustomerRef(c.stripeCustomerId.value, true)), db)
      else
        Step(Ok(CustomerRef(newCustomerId, false)),
             db.(companies := db.companies[companyId := c.(stripeCustomerId := Some(newCustomerId))]))
  }

  /** Once a customer has been created, every later call returns it as existing, whatever
      Stripe would have created, and changes nothing. */
  lemma CustomerIsReused(configured: bool, db: BillingDb, companyId: Id, id1: string, id2: string)
    requires id1 != ""
    ensures var first := CreateCustomerSpec(configured, db, companyId, id1);
            var second := CreateCustomerSpec(configured, first.db, companyId, id2);
            first.result.Ok? ==>
              second == Step(Ok(CustomerRef(first.result.value.customerId, true)), first.db)
  {
  }

  /** The company's customer id once `createSubscription` has looked for one: the stored id
      when set, else the one created for its user, else nothing new. */
  function CustomerAfter(c: Company, hasUser: bool, newCustomerId: string): (id: Option<string>)
    ensures Given(c.stripeCustomerId) ==> id == c.stripeCustomerId
    ensures !Given(c.stripeCustomerId) && hasUser ==> id == Some(newCustomerId)
    ensures !Given(c.stripeCustomerId) && !hasUser ==> id == c.stripeCustomerId
  {
    if !Given(c.stripeCustomerId) && hasUser then Some(newCustomerId) else c.stripeCustomerId
  }

  /** `createSubscription`. `hasUser` says whether the company has a user (whose e-mail would
      name a new customer), `newCustomerId` is the customer Stripe would create, and `sub`
      the subscription Stripe creates. The writes are not in one transaction: a failure of
      the last insert leaves the earlier updates in place. */
  function CreateSubscriptionSpec(configured: bool, db: BillingDb, companyId: Id, planId: string,
                                  hasUser: bool, newCustomerId: string, sub: StripeObject): (r: Step<string>)
    ensures !configured ==> r == Step(Err(NotConfigured), db)
    ensures configured && companyId !in db.companies ==> r == Step(Err(BadRequest("Company not found")), db)
    ensures r.result.Ok? <==>
              configured && companyId in db.companies &&
              (Given(db.companies[companyId].stripeCustomerId) || (hasUser && newCustomerId != "")) &&
              sub.id !in db.subscriptions
    ensures configured && companyId in db.companies && !Given(db.companies[companyId].stripeCustomerId) && !hasUser ==>
              r == Step(Err(BadRequest("Customer not found or created")), db)
    ensures r.result.Ok? ==>
              r.result.value == sub.id &&
              companyId in r.db.companies &&
              Given(r.db.companies[companyId].stripeCustomerId) &&
              r.db.companies[companyId].stripeSubscriptionId == Some(sub.id) &&
              r.db.companies[companyId].subscriptionStatus == (if sub.status == "active" then "active" else "trialing") &&
              r.db.subscriptions == db.subscriptions[sub.id := SubscriptionRow(db.nextId, companyId, sub.id,
                MapStripePlanToDbPlan(planId), sub.status, sub.currentPeriodStart * 1000, sub.currentPeriodEnd * 1000)] &&
              r.db.nextId == db.nextId + 1
    // the customer phase: a missing customer is refused with the customer write (if any) kept
    ensures configured && companyId in db.companies ==>
              var c1 := db.companies[companyId].(stripeCustomerId := CustomerAfter(db.companies[companyId], hasUser, newCustomerId));
              !Given(c1.stripeCustomerId) ==>
                r == Step(Err(BadRequest("Customer not found or created")), db.(companies := db.companies[companyId := c1]))
    // a subscription id already stored: the company update stays, and no row is inserted
    ensures configured && companyId in db.companies ==>
              var c1 := db.companies[companyId].(stripeCustomerId := CustomerAfter(db.companies[companyId], hasUser, newCustomerId));
              Given(c1.stripeCustomerId) && sub.id in db.subscriptions ==>
                r == Step(Err(Conflict(SubscriptionTaken)), db.(companies := db.companies[companyId := c1.(
                       stripeSubscriptionId := Some(sub.id),
                       subscriptionStatus := if sub.status == "active" then "active" else "trialing")]))
    ensures r.db.companies.Keys == db.companies.Keys
    ensures forall id :: id in db.companies && id != companyId ==> r.db.companies[id] == db.companies[id]
    ensures ValidDb(db) ==> ValidDb(r.db)
  {
    if !configured then Step(Err(NotConfigured), db)
    else if companyId !in db.companies then Step(Err(BadRequest("Company not found")), db)
    else
      var stored := db.companies[companyId].stripeCustomerId;
      var created := CreateCustomerSpec(configured, db, companyId, newCustomerId);
      var customerId := if !Given(stored) && hasUser then Some(created.result.value.customerId) else stored;
      var db1 := if !Given(stored) && hasUser then created.db else db;
      if !Given(customerId) then Step(Err(BadRequest("Customer not found or created")), db1)
      else
        var c := db1.companies[companyId];
        var db2 := db1.(companies := db1.companies[companyId := c.(
                          stripeSubscriptionId := Some(sub.id),
                          subscriptionStatus := if sub.status == "active" then "active" else "trialing")]);
        if sub.id in db2.subscriptions then
          Step(Err(Conflict(SubscriptionTaken)), db2)
        else
          var row := SubscriptionRow(db2.nextId, companyId, sub.id, MapStripePlanToDbPlan(planId), sub.status,
                                     sub.currentPeriodStart * 1000, sub.currentPeriodEnd * 1000);
          Step(Ok(sub.id), db2.(subscriptions := db2.subscriptions[sub.id := row], nextId := db2.nextId + 1))
  }

  /** After a subscription is created, its own webhooks find it: an `invoice.paid` for it
      makes the company active. */
  lemma PaidInvoiceActivates(configured: bool, db: BillingDb, companyId: Id, planId: string,
                             hasUser: bool, newCustomerId: string, sub: StripeObject, invoice: StripeObject)
    requires ValidDb(db)
    requires invoice.subscription == Some(sub.id) && sub.id != ""
    ensures var created := CreateSubscriptionSpec(configured, db, companyId, planId, hasUser, newCustomerId, sub);
            var paid := HandleWebhookSpec(configured, created.db, Event("invoice.paid", invoice));
            created.result.Ok? ==>
              paid.result.Ok? && paid.db.companies[companyId].subscriptionStatus == "active"
  {
    var created := CreateSubscriptionSpec(configured, db, companyId, planId, hasUser, newCustomerId, sub);
    if created.result.Ok? {
      var e := Event("invoice.paid", invoice);
      assert created.db.subscriptions[sub.id].companyId == companyId;
      assert Subject(created.db, e) == Some(created.db.subscriptions[sub.id]);
    }
  }

  /** The billing tables and the Stripe client, which exists only when a secret key is set. */
  class BillingStore {
    var companies: map<Id, Company>
    var subscriptions: map<string, SubscriptionRow>
    var nextId: Id
    const configured: bool

    function Db(): BillingDb
      reads this
    {
      BillingDb(companies, subscriptions, nextId)
    }

    constructor (secretKey: Option<string>, companies0: map<Id, Company>)
      ensures configured == Given(secretKey)
      ensures Db() == BillingDb(companies0, map[], 0)
    {
      configured := Given(secretKey);
      companies := companies0;
      subscriptions := map[];
      nextId := 0;
    }

    /** `prisma.company.update` of the status columns. */
    method SetStatus(id: Id, status: string, clearSubscription: bool) returns (r: Result<()>)
      modifies this
      ensures Step(r, Db()) == SetCompanyStatus(old(Db()), id, status, clearSubscription)
    {
      if id !in companies {
        return Err(Internal("Record to update not found"));
      }
      var c := companies[id];
      if clearSubscription {
        c := c.(stripeSubscriptionId := None);
      }
      companies := companies[id := c.(subscriptionStatus := status)];
      r := Ok(());
    }

    /** `handleInvoicePaid` and `handleInvoicePaymentFailed`, which differ only in the status. */
    method HandleInvoice(invoice: StripeObject, status: string) returns (r: Result<()>)
      modifies this
      ensures Step(r, Db()) ==
                if Given(invoice.subscription) && invoice.subscription.value in old(subscriptions)
                then SetCompanyStatus(old(Db()), old(subscriptions)[invoice.subscription.value].companyId, status, false)
                else Step(Ok(()), old(Db()))
    {
      r := Ok(());
      if invoice.subscription.Some? && invoice.subscription.value != "" {
        var subId := invoice.subscription.value;
        if subId in subscriptions {
          r := SetStatus(subscriptions[subId].companyId, status, false);
        }
      }
    }

    method HandleSubscriptionDeleted(s: StripeObject) returns (r: Result<()>)
      modifies this
      ensures Step(r, Db()) ==
                if s.id in old(subscriptions)
                then SetCompanyStatus(old(Db()), old(subscriptions)[s.id].companyId, "canceled", true)
                else Step(Ok(()), old(Db()))
    {
      r := Ok(());
      if s.id in subscriptions {
        r := SetStatus(subscriptions[s.id].companyId, "canceled", true);
      }
    }

    method HandleSubscriptionUpdated(s: StripeObject) returns (r: Result<()>)
      modifies this
      ensures Step(r, Db()) ==
                if s.id in old(subscriptions)
                then SetCompanyStatus(old(Db()).(subscriptions := old(subscriptions)[s.id := CopyFromStripe(old(subscriptions)[s.id], s)]),
                                      old(subscriptions)[s.id].companyId, s.status, false)
                else Step(Ok(()), old(Db()))
    {
      r := Ok(());
      if s.id in subscriptions {
        var row := subscriptions[s.id];
        subscriptions := subscriptions[s.id := CopyFromStripe(row, s)];
        r := SetStatus(row.companyId, s.status, false);
      }
    }

    method HandleWebhook(e: Event) returns (r: Result<()>)
      modifies this
      ensures Step(r, Db()) == HandleWebhookSpec(configured, old(Db()), e)
    {
      if !configured {
        return Err(NotConfigured);
      }
      r := Ok(());
      match e.eventType {
        case "invoice.paid" =>
          r := HandleInvoice(e.data, "active");
        case "invoice.payment_failed" =>
          r := HandleInvoice(e.data, "past_due");
        case "customer.subscription.deleted" =>
          r := HandleSubscriptionDeleted(e.data);
        case "customer.subscription.updated" =>
          r := HandleSubscriptionUpdated(e.data);
        case _ =>
      }
    }

    method CreateCustomer(companyId: Id, newCustomerId: string) returns (r: Result<CustomerRef>)
      modifies this
      ensures Step(r, Db()) == CreateCustomerSpec(configured, old(Db()), companyId, newCustomerId)
    {
      if !configured {
        return Err(NotConfigured);
      }
      if companyId !in companies {
        return Err(BadRequest("Company not found"));
      }
      var c := companies[companyId];
      if c.stripeCustomerId.Some? && c.stripeCustomerId.value != "" {
        return Ok(CustomerRef(c.stripeCustomerId.value, true));
      }
      companies := companies[companyId := c.(stripeCustomerId := Some(newCustomerId))];
      r := Ok(CustomerRef(newCustomerId, false));
    }

    method CreateSubscription(companyId: Id, planId: string, hasUser: bool, newCustomerId: string, sub: StripeObject)
      returns (r: Result<string>)
      modifies this
      ensures Step(r, Db()) == CreateSubscriptionSpec(configured, old(Db()), companyId, planId, hasUser, newCustomerId, sub)
    {
      if !configured {
        return Err(NotConfigured);
      }
      if companyId !in companies {
        return Err(BadRequest("Company not found"));
      }
      var customerId := companies[companyId].stripeCustomerId;
      if !Given(customerId) && hasUser {
        var created := CreateCustomer(companyId, newCustomerId);
        customerId := Some(created.value.customerId);
      }
      if !Given(customerId) {
        return Err(BadRequest("Customer not found or created"));
      }
      var c := companies[companyId];
      companies := companies[companyId := c.(
        stripeSubscriptionId := Some(sub.id),
        subscriptionStatus := if sub.status == "active" then "active" else "trialing")];
      if sub.id in subscriptions {
        return Err(Conflict(SubscriptionTaken));
      }
      subscriptions := subscriptions[sub.id := SubscriptionRow(nextId, companyId, sub.id, MapStripePlanToDbPlan(planId),
                                     sub.status, sub.currentPeriodStart * 1000, sub.currentPeriodEnd * 1000)];
      nextId := nextId + 1;
      r := Ok(sub.id);
    }
  }
}
