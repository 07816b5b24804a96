/** Every accepted connection is in exactly one place, or closed; and connections are dealt out evenly. */
module ServerLedger {
  import opened Basics
  import opened EventLoops
  import opened Servers
  import opened ServerRuns

  // ------------------------------------------------------------ descriptors

  function ReceivedParts(loops: seq<EventLoop>): seq<multiset<nat>> {
    seq(|loops|, i requires 0 <= i < |loops| => EverGiven(loops[i]))
  }

  ghost predicate Accounted(v: Server) {
    v.main.ledger.accepted == Carried(v.main.pc) + Gather(ReceivedParts(v.loops)) + v.main.ledger.closed
  }

  ghost predicate Distinct(v: Server) {
    forall fd :: StillOpen(v)[fd] <= 1
  }

  function Handed(v: Server, move: Move): multiset<nat> {
    var t := Touched(v, move);
    if t.Some? then Given(t.value.step) else multiset{}
  }

  function TakenIn(move: Move): multiset<nat> {
    if move.AcceptOne? then multiset{move.fd} else multiset{}
  }

  lemma LoopsReceive(g: Config, v: Server, move: Move)
    requires Can(g, v, move)
    ensures Gather(ReceivedParts(NextLoops(g, v, move))) == Gather(ReceivedParts(v.loops)) + Handed(v, move)
  {
    hide Can, Enabled, Do, EverGiven, Destroyed;
    var t, parts, loops' := Touched(v, move), ReceivedParts(v.loops), NextLoops(g, v, move);
    if t.Some? {
      TouchedIsEnabled(g, v, move);
      var s' := loops'[t.value.loop];
      StepsConserve(g.options, g.capacity, v.loops[t.value.loop], t.value.step);
      assert ReceivedParts(loops') == parts[t.value.loop := parts[t.value.loop] + Given(t.value.step)];
      GatherGrows(parts, t.value.loop, Given(t.value.step));
    } else if Destroys(v, move) {
      forall i | 0 <= i < |v.loops|
        ensures ReceivedParts(loops')[i] == parts[i]
      {
        DestroyedReceives(v.loops[i]);
      }
      assert ReceivedParts(loops') == parts;
    }
  }

  lemma DestroyedReceives(s: EventLoop)
    ensures EverGiven(Destroyed(s)) == EverGiven(s)
    ensures Held(Destroyed(s)) <= Held(s)
  {
    assert InTransit(Destroyed(s).pc) == InTransit(s.pc);
  }

  /** The main reactor's side of a move: what it takes in, it carries, hands over or closes. */
  predicate Accounts(main: Main, main': Main, handed: multiset<nat>, taken: multiset<nat>) {
    && main'.ledger.accepted == main.ledger.accepted + taken
    && Carried(main'.pc) + handed + main'.ledger.closed == Carried(main.pc) + taken + main.ledger.closed
    && main.ledger.closed <= main'.ledger.closed
  }

  lemma OfferKeepsBooks(l: Ledger)
    ensures AfterOffer(l).accepted == l.accepted && AfterOffer(l).closed == l.closed
  {
  }

  lemma OfferAccounts(v: Server, ready: bool)
    requires v.main.pc.InHand? && PcFits(v.main, |v.loops|)
    ensures Accounts(v.main, Offered(v, v.main.pc, ready), Handed(v, Offer(ready)), multiset{})
  {
    hide AfterOffer, Accepts;
    OfferKeepsBooks(v.main.ledger);
  }

  lemma StillAccounts(main: Main, main': Main, handed: multiset<nat>, taken: multiset<nat>)
    requires main'.ledger.accepted == main.ledger.accepted && main'.ledger.closed == main.ledger.closed
    requires handed == multiset{} && taken == multiset{}
    requires main'.pc == main.pc || (!main'.pc.InHand? && !main.pc.InHand?)
    ensures Accounts(main, main', handed, taken)
  {
  }

  lemma AcceptAccounts(main: Main, fd: nat, count: nat)
    requires main.pc.Accepting?
    ensures
      var main' := main.(pc := InHand(fd, count), ledger := Accepted(main.ledger, fd));
      Accounts(main, main', multiset{}, multiset{fd})
  {
  }

  lemma OnlyOffersHand(g: Config, v: Server, move: Move)
    requires Can(g, v, move) && !move.Offer?
    ensures Handed(v, move) == multiset{}
  {
    hide Enabled, StillOpen, Accepts;
  }

  lemma OtherMovesKeepLedger(g: Config, v: Server, move: Move)
    requires Due(v.main, move) && !move.Offer? && !move.AcceptOne?
    ensures NextMain(g, v, move).ledger == v.main.ledger
  {
    hide Offered;
  }

  lemma OtherMovesCarryNothing(g: Config, v: Server, move: Move)
    requires Due(v.main, move) && PcFits(v.main, |v.loops|) && !move.Offer? && !move.AcceptOne?
    ensures
      var main, main' := v.main, NextMain(g, v, move);
      main'.pc == main.pc || (!main'.pc.InHand? && !main.pc.InHand?)
  {
    hide Offered, Allowed;
  }

  lemma MainAccounts(g: Config, v: Server, move: Move)
    requires Can(g, v, move) && PcFits(v.main, |v.loops|)
    ensures Due(v.main, move) && Accounts(v.main, NextMain(g, v, move), Handed(v, move), TakenIn(move))
  {
    hide Permitted, Offered, Accepts, Accounts, Handed, PcFits;
    if move.Offer? {
      OfferAccounts(v, move.ready);
    } else if move.AcceptOne? {
      OnlyOffersHand(g, v, move);
      AcceptAccounts(v.main, move.fd, v.main.pc.count + 1);
    } else {
      OnlyOffersHand(g, v, move);
      OtherMovesKeepLedger(g, v, move);
      OtherMovesCarryNothing(g, v, move);
      StillAccounts(v.main, NextMain(g, v, move), Handed(v, move), TakenIn(move));
    }
  }

  lemma AccountsBalance(main: Main, main': Main, handed: multiset<nat>, taken: multiset<nat>, all: multiset<nat>)
    requires Accounts(main, main', handed, taken) && main.ledger.accepted == Carried(main.pc) + all + main.ledger.closed
    ensures main'.ledger.accepted == Carried(main'.pc) + (all + handed) + main'.ledger.closed
  {
    hide Carried;
    var c, c' := Carried(main.pc), Carried(main'.pc);
    forall x
      ensures main'.ledger.accepted[x] == c'[x] + all[x] + handed[x] + main'.ledger.closed[x]
    {
      assert (c' + handed + main'.ledger.closed)[x] == (c + taken + main.ledger.closed)[x];
    }
  }

  lemma MovesKeepAccounts(g: Config, v: Server, move: Move)
    requires Accounted(v) && PcFits(v.main, |v.loops|) && Can(g, v, move)
    ensures Accounted(NextServer(g, v, move))
  {
    hide Can, NextMain, NextLoops, Touched, Gather, ReceivedParts, TakenIn, Handed, PcFits, Carried, Accounts;
    CanIsDue(g, v, move);
    LoopsReceive(g, v, move);
    MainAccounts(g, v, move);
    AccountsBalance(v.main, NextMain(g, v, move), Handed(v, move), TakenIn(move), Gather(ReceivedParts(v.loops)));
  }

  lemma LoopsHold(g: Config, v: Server, move: Move)
    requires Can(g, v, move)
    ensures Gather(HeldParts(NextLoops(g, v, move))) <= Gather(HeldParts(v.loops)) + Handed(v, move)
  {
    hide Can, Enabled, Do, Held, Destroyed;
    var t, parts, loops' := Touched(v, move), HeldParts(v.loops), NextLoops(g, v, move);
    if t.Some? {
      TouchedIsEnabled(g, v, move);
      var i, given := t.value.loop, Given(t.value.step);
      StepsHold(g.options, g.capacity, v.loops[i], t.value.step);
      GatherGrows(parts, i, given);
      assert HeldParts(loops')[i] <= parts[i] + given;
      GatherShrinks(parts[i := parts[i] + given], HeldParts(loops'));
    } else if Destroys(v, move) {
      forall i | 0 <= i < |v.loops|
        ensures HeldParts(loops')[i] <= parts[i]
      {
        DestroyedReceives(v.loops[i]);
      }
      GatherShrinks(parts, HeldParts(loops'));
    }
  }

  lemma OpenGrows(g: Config, v: Server, move: Move)
    requires PcFits(v.main, |v.loops|) && Can(g, v, move)
    ensures StillOpen(NextServer(g, v, move)) <= StillOpen(v) + TakenIn(move)
  {
    hide Can, NextMain, NextLoops, Touched, Gather, HeldParts, TakenIn, Handed, PcFits, Carried, Accounts;
    CanIsDue(g, v, move);
    LoopsHold(g, v, move);
    MainAccounts(g, v, move);
    CarriedOrHanded(v.main, NextMain(g, v, move), Handed(v, move), TakenIn(move));
    var c', all' := Carried(NextMain(g, v, move).pc), Gather(HeldParts(NextLoops(g, v, move)));
    var c, all := Carried(v.main.pc), Gather(HeldParts(v.loops));
    forall fd
      ensures (c' + all')[fd] <= (c + all + TakenIn(move))[fd]
    {
      assert (c' + Handed(v, move))[fd] <= (c + TakenIn(move))[fd];
      assert all'[fd] <= (all + Handed(v, move))[fd];
    }
  }

  lemma CarriedOrHanded(main: Main, main': Main, handed: multiset<nat>, taken: multiset<nat>)
    requires Accounts(main, main', handed, taken)
    ensures Carried(main'.pc) + handed <= Carried(main.pc) + taken
  {
    hide Carried;
    Balance(Carried(main.pc) + taken, main.ledger.closed, Carried(main'.pc) + handed, main'.ledger.closed);
  }

  lemma MovesKeepDistinct(g: Config, v: Server, move: Move)
    requires Distinct(v) && PcFits(v.main, |v.loops|) && Can(g, v, move)
    ensures Distinct(NextServer(g, v, move))
  {
    hide Can, NextServer, StillOpen, PcFits;
    OpenGrows(g, v, move);
    AcceptedIsNew(g, v, move);
    forall fd
      ensures StillOpen(NextServer(g, v, move))[fd] <= 1
    {
      assert StillOpen(NextServer(g, v, move))[fd] <= (StillOpen(v) + TakenIn(move))[fd];
    }
  }

  lemma AcceptedIsNew(g: Config, v: Server, move: Move)
    requires Can(g, v, move)
    ensures move.AcceptOne? ==> move.fd !in StillOpen(v)
  {
    hide Enabled, StillOpen, Accepts;
  }

  // ------------------------------------------------------------ fairness

  /** Full rounds give every sub-reactor one connection each; the current round has reached those before `nextLoop`. */
  predicate Fair(l: Ledger, n: nat) {
    && |l.offered| == n && l.nextLoop < n
    && forall i :: 0 <= i < n ==> l.offered[i] == l.rounds + (if i < l.nextLoop then 1 else 0)
  }

  lemma OfferIsFair(l: Ledger, n: nat)
    requires Fair(l, n)
    ensures Fair(AfterOffer(l), n)
  {
  }

  lemma OfferedIsFair(v: Server, ready: bool)
    requires Fair(v.main.ledger, |v.loops|) && v.main.pc.InHand?
    ensures Fair(Offered(v, v.main.pc, ready).ledger, |v.loops|)
  {
    hide AfterOffer, Accepts;
    OfferIsFair(v.main.ledger, |v.loops|);
  }

  lemma MovesKeepFair(g: Config, v: Server, move: Move)
    requires Fair(v.main.ledger, |v.loops|) && Due(v.main, move)
    ensures Fair(NextMain(g, v, move).ledger, |v.loops|)
  {
    hide AfterOffer, Offered;
    if move.Offer? {
      OfferedIsFair(v, move.ready);
    }
  }
}
