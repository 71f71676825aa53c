/** The order monitor itself: the channels and variables of its `run`, one method per case of the loop and one for the
    clean-up after it, each proved to take the step of `OrderLoop`.  Between two cases the monitor is in a state of some
    run. */
module OrderMonitor {
  import opened Market
  import opened OrderLoop

  class Monitor {
    const cfg: Config

    var ch: Channels
    var group: Option<Price>
    var reservation: bool
    var bidPlaced: bool
    var won: bool

    ghost var exit: Option<Reason>
    ghost var past: Past
    ghost var log: seq<Action>

    ghost function View(): State
      reads this
    {
      State(ch, group, reservation, bidPlaced, won, exit, past, log)
    }

    ghost predicate Valid()
      reads this
    {
      Reachable(cfg, View())
    }

    /** What every state of the monitor between two cases has in it: bids made by the rules; and in the loop, a bid on
        its way or a price to come for a reservation held and a group fetched. */
    lemma KeepsTheRules()
      requires Valid()
      ensures BidRules(log)
      ensures exit.None? && (ch.price || ch.bid) ==> group.Some? && reservation && !bidPlaced
      ensures exit.None? ==> !won
    {
      ReachableInv(cfg, View());
      InvRules(cfg, View());
    }

    constructor (cfg: Config, checkForExistingBid: bool)
      ensures this.cfg == cfg && Valid() && View() == Init(checkForExistingBid)
    {
      this.cfg := cfg;
      ch := NO_CHANNEL.(group := true);
      group, reservation, bidPlaced, won := None, false, false, false;
      exit, past, log := None, Past(false, None, false), [];
      new;
      if checkForExistingBid {
        ch := ch.(query := true, storedGroup := ch.group);
        ch := ch.(group := false);
      }
      assert View() == Run(cfg, Init(checkForExistingBid), []);
    }

    /** Waits for a reservation in flight. */
    method AwaitCluster(late: bool)
      modifies this`ch, this`reservation, this`log
      ensures View() == AwaitReservation(old(View()), late)
    {
      if ch.cluster {
        ch := ch.(cluster := false);
        if late {
          reservation := true;
          log := log + [Granted];
        }
      }
    }

    method CancelReservation()
      modifies this`log
      ensures View() == Release(old(View()))
    {
      if reservation {
        log := log + [Unreserve];
      }
    }

    method CancelBid()
      modifies this`log
      ensures View() == Withdraw(old(View()))
    {
      if bidPlaced {
        log := log + [CloseBid];
      }
    }

    /** After the loop: unless the order was won, give back the reservation, one in flight included, and close the
        bid. */
    method CloseOut(ghost r: Reason, late: bool)
      modifies this`ch, this`reservation, this`exit, this`log
      ensures View() == Leave(old(View()), r, late)
    {
      exit := Some(r);
      AwaitCluster(late);
      if !won {
        CancelReservation();
        CancelBid();
      }
    }

    method OnShutdown(late: bool)
      requires Valid() && exit.None?
      modifies this
      ensures Valid() && View() == Step(cfg, old(View()), Event(ShutdownRequest, late))
    {
      ReachableStep(cfg, View(), Event(ShutdownRequest, late));
      CloseOut(Shutdown, late);
    }

    /** An existing bid, of which the chain says whether it is open and the clock whether it is stale. */
    method OnExistingBid(open: bool, stale: bool, late: bool)
      modifies this
      ensures View() == OnBidFound(cfg, old(View()), open, stale, late)
    {
      if !open {
        CloseOut(BidNotOpen, late);
        return;
      }
      AdoptBid();
      if stale && cfg.timeoutEnabled {
        CloseOut(BidStale, late);
        return;
      }
      ch := ch.(timeout := cfg.timeoutEnabled);
      RestoreGroup();
    }

    method AdoptBid()
      modifies this`bidPlaced, this`log, this`past
      ensures View() == Adopt(old(View()))
    {
      bidPlaced := true;
      log := log + [FoundOpenBid];
      past := past.(found := true);
    }

    method RestoreGroup()
      modifies this`ch
      ensures ch == ShowGroup(old(ch))
    {
      ch := ch.(group := ch.storedGroup);
      ch := ch.(storedGroup := false);
    }

    /** The existing bid's lookup: an error other than "not found", or a bid if there is one. */
    method OnQueryBid(failed: bool, found: Option<(bool, bool)>, late: bool)
      requires Valid() && ch.query && exit.None?
      modifies this
      ensures Valid() && View() == Step(cfg, old(View()), Event(LookupResult(failed, found), late))
    {
      ReachableStep(cfg, View(), Event(LookupResult(failed, found), late));
      ch := ch.(query := false);
      if failed {
        CloseOut(QueryFailed, late);
      } else if found.Some? {
        OnExistingBid(found.value.0, found.value.1, late);
      } else {
        RestoreGroup();
      }
    }

    function LookupResult(failed: bool, found: Option<(bool, bool)>): Kind {
      if failed then QueryError
      else if found.Some? then BidFound(found.value.0, found.value.1)
      else BidNotFound
    }

    method OnLease(lease: LeaseID, late: bool)
      requires Valid() && exit.None?
      modifies this
      ensures Valid() && View() == Step(cfg, old(View()), Event(LeaseCreated(lease), late))
    {
      ReachableStep(cfg, View(), Event(LeaseCreated(lease), late));
      if cfg.order.group != lease.Group() {
        return;
      }
      if lease.provider != cfg.address {
        if ch.bid {
          bidPlaced := true;
        }
        CloseOut(LeaseLost, late);
        return;
      }
      log := log + [Won(lease)];
      won := true;
      CloseOut(LeaseWon, late);
    }

    method OnOrderClosed(order: OrderID, late: bool)
      requires Valid() && exit.None?
      modifies this
      ensures Valid() && View() == Step(cfg, old(View()), Event(OrderCloses(order), late))
    {
      ReachableStep(cfg, View(), Event(OrderCloses(order), late));
      if order == cfg.order {
        CloseOut(OrderClosed, late);
      }
    }

    method OnBidClosed(g: GroupID, provider: string, late: bool)
      requires Valid() && exit.None?
      modifies this
      ensures Valid() && View() == Step(cfg, old(View()), Event(BidCloses(g, provider), late))
    {
      ReachableStep(cfg, View(), Event(BidCloses(g, provider), late));
      if won || cfg.order.group != g || provider != cfg.providerText {
        return;
      }
      bidPlaced := false;
      CloseOut(BidClosed, late);
    }

    method OnGroupFetched(max: Option<Price>, late: bool)
      requires Valid() && ch.group && exit.None?
      modifies this
      ensures Valid() && View() == Step(cfg, old(View()), Event(GroupDone(max), late))
    {
      ReachableStep(cfg, View(), Event(GroupDone(max), late));
      ch := ch.(group := false);
      if max.None? {
        CloseOut(GroupFailed, late);
        return;
      }
      group := max;
      log := log + [GroupFetched(max.value)];
      ch := ch.(decision := true);
    }

    method OnShouldBid(bid: Option<bool>, late: bool)
      requires Valid() && ch.decision && exit.None?
      modifies this
      ensures Valid() && View() == Step(cfg, old(View()), Event(DecisionDone(bid), late))
    {
      ReachableStep(cfg, View(), Event(DecisionDone(bid), late));
      assert Step(cfg, View(), Event(DecisionDone(bid), late)) == OnDecision(View(), bid, late);
      ch := ch.(decision := false);
      if bid.None? {
        CloseOut(DecisionFailed, late);
      } else if !bid.value {
        CloseOut(Declined, late);
      } else {
        ch := ch.(cluster := true);
      }
    }

    method OnReserved(ok: bool, late: bool)
      requires Valid() && ch.cluster && exit.None?
      modifies this
      ensures Valid() && View() == Step(cfg, old(View()), Event(ReserveDone(ok), late))
    {
      ReachableStep(cfg, View(), Event(ReserveDone(ok), late));
      ch := ch.(cluster := false);
      if !ok {
        CloseOut(ReserveFailed, late);
        return;
      }
      reservation := true;
      log := log + [Granted];
      if bidPlaced {
        return;
      }
      ch := ch.(price := true);
    }

    method OnPriced(price: Option<Price>, late: bool)
      requires Valid() && ch.price && exit.None?
      modifies this
      ensures Valid() && View() == Step(cfg, old(View()), Event(PriceDone(price), late))
    {
      ReachableStep(cfg, View(), Event(PriceDone(price), late));
      PriceHasGroup(cfg, View());
      ch := ch.(price := false);
      if price.None? {
        CloseOut(PricingFailed, late);
        return;
      }
      var maxPrice := group.value;
      if maxPrice.denom != price.value.denom {
        CloseOut(WrongDenom, late);
        return;
      }
      if maxPrice.amount < price.value.amount {
        CloseOut(PriceTooHigh, late);
        return;
      }
      log := log + [CreateBid(price.value)];
      past := past.(sent := price);
      ch := ch.(bid := true);
    }

    method OnBidResult(ok: bool, late: bool)
      requires Valid() && ch.bid && exit.None?
      modifies this
      ensures Valid() && View() == Step(cfg, old(View()), Event(BidDone(ok), late))
    {
      ReachableStep(cfg, View(), Event(BidDone(ok), late));
      ch := ch.(bid := false);
      if !ok {
        CloseOut(BidFailed, late);
        return;
      }
      bidPlaced := true;
      log := log + [BidLanded];
      past := past.(landed := true);
      ch := ch.(timeout := cfg.timeoutEnabled);
    }

    method OnBidTimeout(late: bool)
      requires Valid() && ch.timeout && exit.None?
      modifies this
      ensures Valid() && View() == Step(cfg, old(View()), Event(TimeoutFires, late))
    {
      ReachableStep(cfg, View(), Event(TimeoutFires, late));
      ch := ch.(timeout := false);
      CloseOut(TimedOut, late);
    }
  }
}
