/** The bank-account ledger service: customers identified by CPF, each with
    a statement of credit and debit operations whose fold is the balance. */
module Ledger {
  import opened Common

  /** The `type` property of a statement operation. */
  datatype Kind = Credit | Debit

  /** A `Date`: the calendar day that `toDateString` keeps, and the
      milliseconds into that day that it drops. */
  datatype Instant = Instant(day: int, millis: nat)

  /** One entry of a statement. Withdrawals carry no description. */
  datatype Operation = Operation(description: Option<string>, amount: int, created_at: Instant, kind: Kind)

  /** A customer record; `cpf` and `name` come from the request body and may
      be absent, `id` is the generated identifier. */
  datatype Customer = Customer(cpf: Option<string>, name: Option<string>, id: string, statement: seq<Operation>)

  /** The error answers of the service (all sent with status 400). */
  datatype Failure = CustomerNotFound | CustomerAlreadyExists | InsufficientFunds

  // ---------------------------------------------------------------------
  // Balance

  /** Sum of the amounts of the credit operations. */
  function Credits(statement: seq<Operation>): int
    decreases |statement|
  {
    if |statement| == 0 then 0
    else (if statement[0].kind == Credit then statement[0].amount else 0) + Credits(statement[1..])
  }

  /** Sum of the amounts of the debit operations. */
  function Debits(statement: seq<Operation>): int
    decreases |statement|
  {
    if |statement| == 0 then 0
    else (if statement[0].kind == Debit then statement[0].amount else 0) + Debits(statement[1..])
  }

  /** The callback handed to `reduce`: it moves the accumulator by the
      operation's share of the credit and debit totals. */
  function Apply(accumulator: int, op: Operation): (r: int)
    ensures r == accumulator + Credits([op]) - Debits([op])
  {
    assert [op][1..] == [];
    match op.kind
    case Credit => accumulator + op.amount
    case Debit => accumulator - op.amount
  }

  /** `statement.reduce(Apply, accumulator)`, a left fold: from any start
      value it adds the credits and subtracts the debits. */
  function Reduce(accumulator: int, statement: seq<Operation>): (r: int)
    ensures r == accumulator + Credits(statement) - Debits(statement)
    decreases |statement|
  {
    if |statement| == 0 then accumulator
    else Reduce(Apply(accumulator, statement[0]), statement[1..])
  }

  /** `getBalance`: the fold started at 0, which is the credits minus the
      debits; an empty statement has balance 0. */
  function Balance(statement: seq<Operation>): (r: int)
    ensures r == Credits(statement) - Debits(statement)
    ensures |statement| == 0 ==> r == 0
  {
    Reduce(0, statement)
  }

  lemma {:induction false} TotalsAppend(a: seq<Operation>, b: seq<Operation>)
    ensures Credits(a + b) == Credits(a) + Credits(b)
    ensures Debits(a + b) == Debits(a) + Debits(b)
    decreases |a|
  {
    if |a| == 0 {
      assert a + b == b;
    } else {
      assert (a + b)[1..] == a[1..] + b;
      TotalsAppend(a[1..], b);
    }
  }

  /** Appending one operation moves the balance by exactly its amount: up
      for a credit, down for a debit. */
  lemma BalanceAppend(statement: seq<Operation>, op: Operation)
    ensures op.kind == Credit ==> Balance(statement + [op]) == Balance(statement) + op.amount
    ensures op.kind == Debit ==> Balance(statement + [op]) == Balance(statement) - op.amount
  {
    TotalsAppend(statement, [op]);
    assert [op][1..] == [];
  }

  // ---------------------------------------------------------------------
  // Statements the handlers can build

  /** An operation the handlers accept after a statement: a deposit of a
      non-negative amount, or a withdrawal the balance covers. */
  predicate Permitted(before: seq<Operation>, op: Operation)
  {
    match op.kind
    case Credit => op.amount >= 0
    case Debit => op.amount <= Balance(before)
  }

  /** Every operation was permitted by the statement before it. */
  ghost predicate Admissible(statement: seq<Operation>)
  {
    forall i :: 0 <= i < |statement| ==> Permitted(statement[..i], statement[i])
  }

  /** A statement grows admissibly exactly by a permitted operation. */
  lemma AdmissibleAppend(statement: seq<Operation>, op: Operation)
    ensures Admissible(statement + [op]) <==> Admissible(statement) && Permitted(statement, op)
  {
    var s := statement + [op];
    assert s[..|statement|] == statement;
    forall i | 0 <= i < |statement|
      ensures s[..i] == statement[..i] && s[i] == statement[i]
    {
    }
  }

  /** The headline invariant: a statement built from non-negative deposits
      and covered withdrawals never has a negative balance, at any point. */
  lemma {:induction false} AdmissibleNeverNegative(statement: seq<Operation>)
    requires Admissible(statement)
    ensures forall i :: 0 <= i <= |statement| ==> Balance(statement[..i]) >= 0
    decreases |statement|
  {
    if |statement| > 0 {
      var n := |statement| - 1;
      var init := statement[..n];
      assert statement == init + [statement[n]];
      AdmissibleAppend(init, statement[n]);
      AdmissibleNeverNegative(init);
      BalanceAppend(init, statement[n]);
      forall i | 0 <= i <= |statement|
        ensures Balance(statement[..i]) >= 0
      {
        if i <= n {
          assert statement[..i] == init[..i];
        } else {
          assert statement[..i] == statement;
          assert init[..n] == init;
        }
      }
    } else {
      assert statement[..0] == [];
    }
  }

  /** The filter of GET /statements/data: the operations made on the
      requested day, each as often as in the statement and in statement
      order; an unparsable date (`None`) matches no operation. */
  function OnDay(statement: seq<Operation>, date: Option<int>): (r: seq<Operation>)
    ensures IsSubsequence(r, statement)
    ensures forall i :: 0 <= i < |r| ==> Some(r[i].created_at.day) == date
    ensures forall i :: 0 <= i < |statement| && Some(statement[i].created_at.day) == date ==>
      multiset(r)[statement[i]] == multiset(statement)[statement[i]]
    ensures date.None? ==> r == []
  {
    var onDay := (op: Operation) => Some(op.created_at.day) == date;
    FilterIsSubsequence(statement, onDay);
    FilterEmpty(statement, onDay);
    Filter(statement, onDay)
  }

  /** An operation appended to a statement (a deposit or a withdrawal)
      shows up at the end of that day's listing, after the earlier ones,
      and in no other day's listing. */
  lemma OnDayAppend(statement: seq<Operation>, op: Operation, date: Option<int>)
    ensures OnDay(statement + [op], date) ==
      OnDay(statement, date) + (if Some(op.created_at.day) == date then [op] else [])
  {
    var onDay := (o: Operation) => Some(o.created_at.day) == date;
    FilterAppend(statement, [op], onDay);
    assert Filter([op], onDay) == (if onDay(op) then [op] else []) + Filter([op][1..], onDay);
    assert [op][1..] == [];
  }

  // ---------------------------------------------------------------------
  // Lookups

  /** `verifyIfExistsAccountByCPF`: the index of the first customer whose
      `cpf` equals the header's, or `None` (answered with 400). */
  function Lookup(customers: seq<Customer>, cpf: Option<string>): (r: Option<nat>)
    ensures r.Some? ==> r.value < |customers| && customers[r.value].cpf == cpf
    ensures r.Some? ==> forall j :: 0 <= j < r.value ==> customers[j].cpf != cpf
    ensures r.None? <==> forall j :: 0 <= j < |customers| ==> customers[j].cpf != cpf
  {
    FindFirst(customers, (c: Customer) => c.cpf == cpf)
  }

  /** `customers.some(...)`: some customer already has this `cpf`. */
  function CpfTaken(customers: seq<Customer>, cpf: Option<string>): (r: bool)
    ensures r <==> exists j :: 0 <= j < |customers| && customers[j].cpf == cpf
  {
    Lookup(customers, cpf).Some?
  }

  /** No two customers share a `cpf`. */
  ghost predicate CpfsUnique(customers: seq<Customer>)
  {
    forall i, j :: 0 <= i < j < |customers| ==> customers[i].cpf != customers[j].cpf
  }

  /** With unique CPFs, the lookup finds each customer by its own CPF. */
  lemma LookupFindsOwner(customers: seq<Customer>, i: nat)
    requires CpfsUnique(customers)
    requires i < |customers|
    ensures Lookup(customers, customers[i].cpf) == Some(i)
  {
  }

  /** The delete handler removes the first customer, not the one it found:
      when the found customer is not the first, it is still found
      afterwards, one place earlier, and the first customer is gone. */
  lemma DeleteSparesFoundCustomer(customers: seq<Customer>, cpf: Option<string>)
    requires CpfsUnique(customers)
    requires Lookup(customers, cpf).Some? && Lookup(customers, cpf).value > 0
    ensures Lookup(SpliceOne(customers, ObjectAsIndex), cpf) == Some(Lookup(customers, cpf).value - 1)
    ensures Lookup(SpliceOne(customers, ObjectAsIndex), customers[0].cpf).None?
  {
    var after := SpliceOne(customers, ObjectAsIndex);
    SpliceObjectDropsFirst(customers);
    var k := Lookup(customers, cpf).value;
    assert after[k - 1] == customers[k];
    LookupFindsOwner(after, k - 1);
  }

  /** Every customer's statement is admissible. */
  ghost predicate AllAdmissible(customers: seq<Customer>)
  {
    forall i :: 0 <= i < |customers| ==> Admissible(customers[i].statement)
  }

  /** So no customer of such a ledger has a negative balance. */
  lemma AllAdmissibleSolvent(customers: seq<Customer>)
    requires AllAdmissible(customers)
    ensures forall i :: 0 <= i < |customers| ==> Balance(customers[i].statement) >= 0
  {
    forall i | 0 <= i < |customers|
      ensures Balance(customers[i].statement) >= 0
    {
      var s := customers[i].statement;
      AdmissibleNeverNegative(s);
      assert s[..|s|] == s;
    }
  }

  /** The service's shared `customers` array and its handlers. */
  class Bank {
    var customers: seq<Customer>

    /** No two accounts share a CPF. */
    ghost predicate Valid()
      reads this
    {
      CpfsUnique(customers)
    }

    /** Every statement was built by permitted operations only. */
    ghost predicate Sound()
      reads this
    {
      AllAdmissible(customers)
    }

    constructor ()
      ensures Valid() && Sound()
      ensures customers == []
    {
      customers := [];
    }

    /** POST /accounts */
    method CreateAccount(cpf: Option<string>, name: Option<string>, id: string) returns (r: Outcome<Failure>)
      requires Valid()
      modifies this
      ensures Valid()
      ensures old(CpfTaken(customers, cpf)) ==> r == Fail(CustomerAlreadyExists) && customers == old(customers)
      ensures !old(CpfTaken(customers, cpf)) ==> r == Done && customers == old(customers) + [Customer(cpf, name, id, [])]
      ensures old(Sound()) ==> Sound()
    {
      if CpfTaken(customers, cpf) {
        return Fail(CustomerAlreadyExists);
      }
      customers := customers + [Customer(cpf, name, id, [])];
      r := Done;
    }

    /** GET /statements */
    method GetStatement(cpf: Option<string>) returns (r: Result<seq<Operation>, Failure>)
      ensures r.Err? <==> Lookup(customers, cpf).None?
      ensures r.Err? ==> r.error == CustomerNotFound
      ensures r.Ok? ==> r.value == customers[Lookup(customers, cpf).value].statement
    {
      match Lookup(customers, cpf)
      case None => r := Err(CustomerNotFound);
      case Some(k) => r := Ok(customers[k].statement);
    }

    /** POST /deposits */
    method Deposit(cpf: Option<string>, description: Option<string>, amount: int, now: Instant)
      returns (r: Outcome<Failure>)
      requires Valid()
      modifies this
      ensures Valid()
      ensures old(Lookup(customers, cpf)).None? ==> r == Fail(CustomerNotFound) && customers == old(customers)
      ensures old(Lookup(customers, cpf)).Some? ==>
        var k := old(Lookup(customers, cpf)).value;
        var c := old(customers)[k];
        r == Done
        && customers == old(customers)[k := c.(statement := c.statement + [Operation(description, amount, now, Credit)])]
        && Balance(customers[k].statement) == Balance(c.statement) + amount
      ensures amount >= 0 && old(Sound()) ==> Sound()
    {
      match Lookup(customers, cpf)
      case None =>
        r := Fail(CustomerNotFound);
      case Some(k) =>
        var c := customers[k];
        var op := Operation(description, amount, now, Credit);
        BalanceAppend(c.statement, op);
        AdmissibleAppend(c.statement, op);
        customers := customers[k := c.(statement := c.statement + [op])];
        r := Done;
    }

    /** POST /withdraws */
    method Withdraw(cpf: Option<string>, amount: int, now: Instant) returns (r: Outcome<Failure>)
      requires Valid()
      modifies this
      ensures Valid()
      ensures old(Lookup(customers, cpf)).None? ==> r == Fail(CustomerNotFound) && customers == old(customers)
      ensures old(Lookup(customers, cpf)).Some? ==>
        var k := old(Lookup(customers, cpf)).value;
        var c := old(customers)[k];
        if Balance(c.statement) < amount then
          r == Fail(InsufficientFunds) && customers == old(customers)
        else
          r == Done
          && customers == old(customers)[k := c.(statement := c.statement + [Operation(None, amount, now, Debit)])]
          && Balance(customers[k].statement) == Balance(c.statement) - amount
          && Balance(customers[k].statement) >= 0
      ensures old(Sound()) ==> Sound()
    {
      match Lookup(customers, cpf)
      case None =>
        r := Fail(CustomerNotFound);
      case Some(k) =>
        var c := customers[k];
        var balance := Balance(c.statement);
        if balance < amount {
          return Fail(InsufficientFunds);
        }
        var op := Operation(None, amount, now, Debit);
        BalanceAppend(c.statement, op);
        AdmissibleAppend(c.statement, op);
        customers := customers[k := c.(statement := c.statement + [op])];
        r := Done;
    }

    /** GET /statements/data; `date` is `None` when the header does not
        parse as a date. */
    method StatementOnDay(cpf: Option<string>, date: Option<int>) returns (r: Result<seq<Operation>, Failure>)
      ensures r.Err? <==> Lookup(customers, cpf).None?
      ensures r.Err? ==> r.error == CustomerNotFound
      ensures r.Ok? ==> r.value == OnDay(customers[Lookup(customers, cpf).value].statement, date)
    {
      match Lookup(customers, cpf)
      case None => r := Err(CustomerNotFound);
      case Some(k) => r := Ok(OnDay(customers[k].statement, date));
    }

    /** PUT /accounts: only the name changes. */
    method UpdateName(cpf: Option<string>, name: Option<string>) returns (r: Outcome<Failure>)
      requires Valid()
      modifies this
      ensures Valid()
      ensures old(Lookup(customers, cpf)).None? ==> r == Fail(CustomerNotFound) && customers == old(customers)
      ensures old(Lookup(customers, cpf)).Some? ==>
        var k := old(Lookup(customers, cpf)).value;
        r == Done
        && |customers| == |old(customers)|
        && customers[k].name == name
        && customers[k].cpf == old(customers)[k].cpf
        && customers[k].id == old(customers)[k].id
        && customers[k].statement == old(customers)[k].statement
        && forall j :: 0 <= j < |customers| && j != k ==> customers[j] == old(customers)[j]
      ensures old(Sound()) ==> Sound()
    {
      match Lookup(customers, cpf)
      case None =>
        r := Fail(CustomerNotFound);
      case Some(k) =>
        customers := customers[k := customers[k].(name := name)];
        r := Done;
    }

    /** GET /accounts */
    method GetAccount(cpf: Option<string>) returns (r: Result<Customer, Failure>)
      ensures r.Err? <==> !CpfTaken(customers, cpf)
      ensures r.Err? ==> r.error == CustomerNotFound
      ensures r.Ok? ==> r.value == customers[Lookup(customers, cpf).value] && r.value.cpf == cpf
    {
      match Lookup(customers, cpf)
      case None => r := Err(CustomerNotFound);
      case Some(k) => r := Ok(customers[k]);
    }

    /** DELETE /accounts: `splice` is handed the customer object, which
        coerces to index 0, so the first account is removed whichever one
        the header named. */
    method Delete(cpf: Option<string>) returns (r: Outcome<Failure>)
      requires Valid()
      modifies this
      ensures Valid()
      ensures old(Lookup(customers, cpf)).None? ==> r == Fail(CustomerNotFound) && customers == old(customers)
      ensures old(Lookup(customers, cpf)).Some? ==>
        r == Done && customers == old(customers)[1..] && |customers| == |old(customers)| - 1
      ensures old(Sound()) ==> Sound()
    {
      match Lookup(customers, cpf)
      case None =>
        r := Fail(CustomerNotFound);
      case Some(k) =>
        SpliceObjectDropsFirst(customers);
        customers := SpliceOne(customers, ObjectAsIndex);
        r := Done;
    }

    /** GET /balances */
    method GetBalance(cpf: Option<string>) returns (r: Result<int, Failure>)
      ensures r.Err? <==> Lookup(customers, cpf).None?
      ensures r.Err? ==> r.error == CustomerNotFound
      ensures r.Ok? ==>
        var s := customers[Lookup(customers, cpf).value].statement;
        r.value == Credits(s) - Debits(s)
      ensures r.Ok? && Sound() ==> r.value >= 0
    {
      match Lookup(customers, cpf)
      case None =>
        r := Err(CustomerNotFound);
      case Some(k) =>
        var s := customers[k].statement;
        if Sound() {
          AllAdmissibleSolvent(customers);
        }
        r := Ok(Balance(s));
    }
  }
}
