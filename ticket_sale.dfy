/** `TicketSaleContract` of src/ticketr.rs as an object: the storage mappers
    are fields that the endpoints update in place, next to the contract's
    EGLD balance and the log of calls made into the host. Each endpoint is
    proved to perform the transition of the same name in `TicketSaleSpec`. */
module TicketSale {
  import opened Base
  import opened Decimal
  import opened TicketSaleSpec

  class TicketSaleContract {
    /** The `eventInfo` mapper. */
    var eventInfo: Option<EventInfo>
    /** The `ticketPrice` mapper. */
    var ticketPrice: Option<nat>
    /** The `nftTokenIdentifier` mapper. */
    var nftTokenIdentifier: Option<TokenId>
    /** The contract's EGLD balance, as the host keeps it. */
    var balance: nat
    /** Every call into the host (issue, mint, transfer), oldest first. */
    var effects: seq<Effect>
    /** Issuance requests whose callback the host has yet to deliver. */
    ghost var outstandingIssues: nat

    function Snapshot(): Ledger
      reads this
    {
      Ledger(eventInfo, ticketPrice, nftTokenIdentifier, balance)
    }

    /** The storage is in one of the intended phases, and an issuance is
        outstanding only while the contract waits for it. */
    ghost predicate Valid()
      reads this
    {
      && Consistent(Snapshot())
      && outstandingIssues <= 1
      && (outstandingIssues == 1 ==> PhaseOf(Snapshot()) == IssuePending)
    }

    /** Deployment: `init` leaves every mapper empty. */
    constructor ()
      ensures Valid()
      ensures Snapshot() == Deployed() && effects == [] && outstandingIssues == 0
    {
      eventInfo, ticketPrice, nftTokenIdentifier, balance := None, None, None, 0;
      effects := [];
      outstandingIssues := 0;
    }

    /** `setup_event`, with the corrected second check. The correction has a
        cost: once a callback has been rejected by its owner check, the
        contract stays pending with no callback outstanding, and every further
        setup fails with `AlreadySetUp`, where the source would accept the
        owner's retry (see `RejectedCallbackScenario`). */
    method SetupEvent(caller: Address, owner: Address, eventName: seq<byte>, price: nat,
                      totalTickets: u64, issueCost: nat) returns (r: Outcome<Error>)
      requires Valid()
      modifies this
      ensures Valid()
      ensures match TicketSaleSpec.SetupEvent(old(Snapshot()), caller, owner, eventName, price, totalTickets, issueCost)
              case Failure(e) =>
                && r == Fail(e) && Snapshot() == old(Snapshot()) && effects == old(effects)
                && outstandingIssues == old(outstandingIssues)
              case Success(step) =>
                && r == Pass && Snapshot() == step.next && effects == old(effects) + step.effects
                && outstandingIssues == 1
    {
      if caller != owner {
        return Fail(NotOwner);
      }
      if nftTokenIdentifier.Some? || eventInfo.Some? {
        return Fail(AlreadySetUp);
      }
      if price == 0 {
        return Fail(ZeroPrice);
      }
      if totalTickets == 0 {
        return Fail(ZeroTotalTickets);
      }
      ticketPrice := Some(price);
      var eventData := EventInfo(eventName, totalTickets, 0);
      eventInfo := Some(eventData);
      effects := effects + [IssueRequest(issueCost)];
      outstandingIssues := outstandingIssues + 1;
      r := Pass;
    }

    /** `issue_callback`. The host delivers it once per issuance request;
        delivery consumes the request even when the owner check fails. */
    method IssueCallback(caller: Address, owner: Address, result: AsyncCallResult,
                         returnedTokens: seq<EsdtPayment>) returns (r: Outcome<Error>)
      requires Valid() && outstandingIssues > 0
      modifies this
      ensures Valid() && outstandingIssues == old(outstandingIssues) - 1
      ensures match TicketSaleSpec.IssueCallback(old(Snapshot()), caller, owner, result, returnedTokens)
              case Failure(e) =>
                r == Fail(e) && Snapshot() == old(Snapshot()) && effects == old(effects)
              case Success(step) =>
                r == Pass && Snapshot() == step.next && effects == old(effects) + step.effects
    {
      outstandingIssues := outstandingIssues - 1;
      if caller != owner {
        return Fail(NotOwner);
      }
      match result {
        case IssueOk(tokenId) =>
          nftTokenIdentifier := Some(tokenId);
        case IssueErr(_, _) =>
          for i := 0 to |returnedTokens|
            invariant effects == old(effects) + Refunds(owner, returnedTokens[..i])
            invariant Snapshot() == old(Snapshot())
            invariant outstandingIssues == old(outstandingIssues) - 1
          {
            var payment := returnedTokens[i];
            effects := effects + [DirectEsdt(owner, payment.token, payment.nonce, payment.amount)];
            assert returnedTokens[..i + 1][..i] == returnedTokens[..i];
          }
          assert returnedTokens[..|returnedTokens|] == returnedTokens;
          ticketPrice := None;
          eventInfo := None;
      }
      r := Pass;
    }

    /** `withdraw`. */
    method Withdraw(caller: Address, owner: Address) returns (r: Outcome<Error>)
      requires Valid()
      modifies this
      ensures Valid() && outstandingIssues == old(outstandingIssues)
      ensures match TicketSaleSpec.Withdraw(old(Snapshot()), caller, owner)
              case Failure(e) =>
                r == Fail(e) && Snapshot() == old(Snapshot()) && effects == old(effects)
              case Success(step) =>
                r == Pass && Snapshot() == step.next && effects == old(effects) + step.effects
    {
      if caller != owner {
        return Fail(NotOwner);
      }
      var scBalance := balance;
      if !(scBalance > 0) {
        return Fail(NoFunds);
      }
      effects := effects + [DirectEgld(owner, scBalance)];
      balance := balance - scBalance;
      r := Pass;
    }

    /** `buy_ticket`; `payment` is the attached EGLD and `newNonce` the serial
        number the host assigns to the minted unit. */
    method BuyTicket(caller: Address, payment: nat, newNonce: u64) returns (r: Outcome<Error>)
      requires Valid()
      modifies this
      ensures Valid() && outstandingIssues == old(outstandingIssues)
      ensures match TicketSaleSpec.BuyTicket(old(Snapshot()), caller, payment, newNonce)
              case Failure(e) =>
                r == Fail(e) && Snapshot() == old(Snapshot()) && effects == old(effects)
              case Success(step) =>
                r == Pass && Snapshot() == step.next && effects == old(effects) + step.effects
    {
      if nftTokenIdentifier.None? {
        return Fail(NotSetUpYet);
      }
      var price := GetTicketPrice();
      if payment != price {
        return Fail(PaymentMismatch);
      }
      var eventData := eventInfo.value;
      if !(eventData.soldTickets < eventData.totalTickets) {
        return Fail(AllTicketsSold);
      }
      eventData := eventData.(soldTickets := eventData.soldTickets + 1);
      var tokenId := nftTokenIdentifier.value;

      var nftName := eventData.name;
      nftName := nftName + TicketNameInfix;
      nftName := nftName + NatToDecimal(eventData.soldTickets);

      var attributes: seq<byte> := [];
      attributes := attributes + AttributesPrefix;
      attributes := attributes + eventData.name;

      var uris := [TicketUri];

      eventInfo := Some(eventData);
      balance := balance + payment;
      effects := effects + [NftCreate(tokenId, AmountToMint, nftName, Royalties, [], attributes, uris, newNonce)];
      effects := effects + [DirectEsdt(caller, tokenId, newNonce, AmountToMint)];
      assert nftName == TicketName(eventData.name, eventData.soldTickets);
      assert attributes == TicketAttributes(eventData.name);
      assert effects == old(effects) + SaleEffects(tokenId, eventData.name, eventData.soldTickets, caller, newNonce);
      r := Pass;
    }

    /** `getEventInfo`: present exactly once the event has been set up, and
        then within its capacity. */
    function GetEventInfo(): (info: Option<EventInfo>)
      reads this
      ensures info == eventInfo
      ensures Consistent(Snapshot()) ==>
                && (info.Some? <==> PhaseOf(Snapshot()) != Unconfigured)
                && (info.Some? ==> info.value.soldTickets <= info.value.totalTickets)
    {
      eventInfo
    }

    /** `getTicketPrice`: an empty mapper reads as 0, so the price is positive
        exactly once the event has been set up. */
    function GetTicketPrice(): (price: nat)
      reads this
      ensures ticketPrice.Some? ==> price == ticketPrice.value
      ensures ticketPrice.None? ==> price == 0
      ensures Consistent(Snapshot()) ==> (price > 0 <==> PhaseOf(Snapshot()) != Unconfigured)
    {
      StoredPrice(Snapshot())
    }

    /** `getNftTokenIdentifier`: present exactly once the sale is open. */
    function GetNftTokenIdentifier(): (token: Option<TokenId>)
      reads this
      ensures token == nftTokenIdentifier
      ensures Consistent(Snapshot()) ==> (token.Some? <==> PhaseOf(Snapshot()) in {Selling, SoldOut})
    {
      nftTokenIdentifier
    }
  }

  /** The scenario "Fest", price 100, two tickets: set up, issuance
      succeeds, two buyers each get one ticket, the third purchase fails. */
  method FestScenario()
  {
    var owner, x, y := Address([1]), Address([2]), Address([3]);
    var fest := Ascii("Fest");
    var token := TokenId(Ascii("TICKET-ABCD"));
    var c := new TicketSaleContract();
    var r := c.SetupEvent(owner, owner, fest, 100, 2, 50);
    assert r == Pass;
    r := c.IssueCallback(owner, owner, IssueOk(token), []);
    assert r == Pass && PhaseOf(c.Snapshot()) == Selling;
    r := c.BuyTicket(x, 100, 1);
    assert r == Pass && c.eventInfo.value.soldTickets == 1;
    assert c.effects[|c.effects| - 1] == DirectEsdt(x, token, 1, 1);
    assert c.effects[|c.effects| - 2].name == TicketName(fest, 1);
    r := c.BuyTicket(y, 100, 2);
    assert r == Pass && c.eventInfo.value.soldTickets == 2 && c.balance == 200;
    r := c.BuyTicket(x, 100, 3);
    assert r == Fail(AllTicketsSold);
  }

  /** The cost of the corrected setup: the host delivers the callback of
      the one issuance with a caller other than the owner, the owner check
      rejects it, and the contract is left pending with nothing outstanding,
      so neither setup nor purchase can ever succeed again. */
  method RejectedCallbackScenario()
  {
    var owner, x := Address([1]), Address([2]);
    var fest := Ascii("Fest");
    var c := new TicketSaleContract();
    var r := c.SetupEvent(owner, owner, fest, 100, 2, 50);
    assert r == Pass && c.outstandingIssues == 1;
    r := c.IssueCallback(x, owner, IssueOk(TokenId(Ascii("TICKET-ABCD"))), []);
    assert r == Fail(NotOwner);
    assert PhaseOf(c.Snapshot()) == IssuePending && c.outstandingIssues == 0;
    r := c.SetupEvent(owner, owner, fest, 100, 2, 50);
    assert r == Fail(AlreadySetUp);
    r := c.BuyTicket(x, 100, 1);
    assert r == Fail(NotSetUpYet);
    assert SetupEventAsWritten(c.Snapshot(), owner, owner, fest, 100, 2, 50).Success?;
  }
}
