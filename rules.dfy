/** The game state as a value, each player action as a function from the old
    state to the new one, and the invariants those actions keep. The class in
    module Session performs the same actions in place and is proved against
    these functions. Times are Date.now() readings in milliseconds. */
module Rules {
  import opened Generators

  datatype GameState = GameState(
    bytes: real,
    totalBytes: real,
    clicks: nat,
    generators: seq<Generator>,
    lastSave: int,
    gameStart: int,
    lastUpdate: int)

  /** What one call of buy_generator did. */
  datatype BuyOutcome =
    | Bought
    | Ignored  // too expensive or still locked: nothing happens
    | Threw    // no generator with that id: the handler throws before changing anything

  /** What a load hands back: unparsable text, an object without keys, or a
      saved game. */
  datatype SaveData = Malformed | EmptyObject | Snapshot(state: GameState)

  /** The state of a game started at time `now`. */
  function Fresh(now: int): GameState
  {
    GameState(0.0, 0.0, 0, Catalogue, now, now, now)
  }

  /** The unlock gate: tier i (i > 0) opens once tier i - 1 has five units. */
  predicate Opens(gs: seq<Generator>, i: int)
    requires 0 <= i < |gs|
  {
    i > 0 && gs[i - 1].count >= UnlockThreshold
  }

  /** One pass of check_unlocks: every generator whose gate is open becomes
      unlocked; nothing else changes. */
  function Unlocks(gs: seq<Generator>): (r: seq<Generator>)
    ensures |r| == |gs|
    ensures forall i :: 0 <= i < |gs| ==> r[i].(unlocked := gs[i].unlocked) == gs[i]
    ensures forall i :: 0 <= i < |gs| && gs[i].unlocked ==> r[i].unlocked
    ensures forall i :: 0 <= i < |gs| && Opens(gs, i) ==> r[i].unlocked
    ensures forall i :: 0 <= i < |gs| && r[i].unlocked ==> gs[i].unlocked || Opens(gs, i)
  {
    seq(|gs|, i requires 0 <= i < |gs| => gs[i].(unlocked := gs[i].unlocked || Opens(gs, i)))
  }

  /** click_byte: both byte counters grow by the click yield, the click count
      by one, then the unlock pass runs. */
  function Clicked(s: GameState): GameState
    requires |s.generators| > 0
  {
    var y := ClickYield(s.generators);
    s.(bytes := s.bytes + y, totalBytes := s.totalBytes + y, clicks := s.clicks + 1,
       generators := Unlocks(s.generators))
  }

  /** The guard of buy_generator: an existing, unlocked, affordable generator. */
  predicate CanBuy(s: GameState, id: int)
  {
    0 <= id < |s.generators| &&
    s.bytes >= s.generators[id].cost as real && s.generators[id].unlocked
  }

  function PurchaseOutcome(s: GameState, id: int): BuyOutcome
  {
    if !(0 <= id < |s.generators|) then Threw
    else if CanBuy(s, id) then Bought
    else Ignored
  }

  /** buy_generator: pay the price, add a unit, reprice, run the unlock pass;
      otherwise nothing changes. */
  function Purchased(s: GameState, id: int): GameState
  {
    if CanBuy(s, id) then
      var g := s.generators[id];
      var g' := g.(count := g.count + 1, cost := CostAt(g.baseCost, g.count + 1));
      s.(bytes := s.bytes - g.cost as real, generators := Unlocks(s.generators[id := g']))
    else
      s
  }

  /** Seconds elapsed between two millisecond readings; negative when the
      clock went back. */
  function Elapsed(from: int, to: int): real
  {
    (to - from) as real / 1000.0
  }

  /** game_loop: production over the elapsed time is added to both byte
      counters and the tick time is recorded. */
  function Ticked(s: GameState, now: int): GameState
  {
    var gain := Rate(s.generators) * Elapsed(s.lastUpdate, now);
    s.(bytes := s.bytes + gain, totalBytes := s.totalBytes + gain, lastUpdate := now)
  }

  /** new_game: once confirmed, a fresh game with the unlock pass applied and
      the save time stamped. */
  function Restarted(s: GameState, confirmed: bool, now: int): GameState
  {
    if confirmed then
      var f := Fresh(now);
      f.(generators := Unlocks(f.generators), lastSave := now)
    else
      s
  }

  /** save_game stamps the save time; the result is what gets serialised. */
  function Saved(s: GameState, now: int): GameState
  {
    s.(lastSave := now)
  }

  /** load_game: a saved game replaces the state wholesale, except that the tick
      time is reset to now, and the unlock pass runs; anything else is ignored. */
  function Loaded(s: GameState, data: SaveData, now: int): GameState
  {
    match data
    case Snapshot(t) => t.(lastUpdate := now, generators := Unlocks(t.generators))
    case _ => s
  }

  // ---------------------------------------------------------------------------
  // Invariants

  /** Generator i is catalogue tier i with some count, priced by the 1.15 curve. */
  predicate Tiers(gs: seq<Generator>)
  {
    |gs| == |Catalogue| &&
    forall i :: 0 <= i < |gs| ==>
      gs[i] == Catalogue[i].(count := gs[i].count,
                             cost := CostAt(Catalogue[i].baseCost, gs[i].count),
                             unlocked := gs[i].unlocked)
  }

  /** Generator i is unlocked exactly when it is the first or its predecessor
      has at least five units. */
  predicate UnlockChain(gs: seq<Generator>)
  {
    forall i :: 0 <= i < |gs| ==> (gs[i].unlocked <==> i == 0 || gs[i - 1].count >= UnlockThreshold)
  }

  /** What holds of every state a game reaches without a load. */
  predicate Consistent(s: GameState)
  {
    Tiers(s.generators) && UnlockChain(s.generators) && 0.0 <= s.bytes <= s.totalBytes
  }

  /** Nothing the player earned is lost between s and t: lifetime bytes,
      clicks, owned units and unlocks never go back. */
  predicate Progressed(s: GameState, t: GameState)
  {
    s.totalBytes <= t.totalBytes && s.clicks <= t.clicks &&
    |s.generators| == |t.generators| &&
    forall i :: 0 <= i < |s.generators| ==>
      s.generators[i].count <= t.generators[i].count &&
      (s.generators[i].unlocked ==> t.generators[i].unlocked)
  }

  lemma TiersProduce(gs: seq<Generator>)
    requires Tiers(gs)
    ensures NonNegativeProduction(gs)
  {
    CatalogueFacts();
    forall i | 0 <= i < |gs| ensures gs[i].baseProduction >= 0.0 {
      assert gs[i].baseProduction == Catalogue[i].baseProduction;
    }
  }

  // ---------------------------------------------------------------------------
  // The unlock pass

  lemma UnlocksIdempotent(gs: seq<Generator>)
    ensures Unlocks(Unlocks(gs)) == Unlocks(gs)
  {
    var r := Unlocks(gs);
    forall i | 0 <= i < |r| ensures Unlocks(r)[i] == r[i] {
      if Opens(r, i) {
        assert r[i - 1].count == gs[i - 1].count;
      }
    }
  }

  /** In a state that keeps the unlock chain the pass changes nothing. */
  lemma ChainIsFixedPoint(gs: seq<Generator>)
    requires UnlockChain(gs)
    ensures Unlocks(gs) == gs
  {
    var r := Unlocks(gs);
    forall i | 0 <= i < |gs| ensures r[i] == gs[i] {
      assert r[i].unlocked == gs[i].unlocked;
    }
  }

  /** The pass leaves the production rate alone. */
  lemma UnlocksKeepRate(gs: seq<Generator>)
    ensures Rate(Unlocks(gs)) == Rate(gs)
  {
    var r := Unlocks(gs);
    forall i | 0 <= i < |gs| ensures Output(r[i]) == Output(gs[i]) {
      assert r[i].count == gs[i].count;
    }
    RateOfSameOutputs(r, gs);
  }

  // ---------------------------------------------------------------------------
  // The operations keep the invariants

  lemma FreshIsConsistent(now: int)
    ensures Consistent(Fresh(now))
    ensures Unlocks(Catalogue) == Catalogue
    ensures Rate(Catalogue) == 0.0
  {
    CatalogueFacts();
    assert UnlockChain(Catalogue) by {
      forall i | 0 <= i < |Catalogue|
        ensures Catalogue[i].unlocked <==> i == 0 || Catalogue[i - 1].count >= UnlockThreshold
      {
        assert i > 0 ==> Catalogue[i - 1].count == 0;
      }
    }
    ChainIsFixedPoint(Catalogue);
    forall i | 0 <= i < |Catalogue| ensures Output(Catalogue[i]) == Output(Catalogue[i].(count := 0)) {
    }
    RateZero(Catalogue);
  }

  lemma {:induction false} RateZero(gs: seq<Generator>)
    requires forall i :: 0 <= i < |gs| ==> gs[i].count == 0
    ensures Rate(gs) == 0.0
  {
    if gs != [] {
      RateZero(gs[..|gs| - 1]);
    }
  }

  /** A click adds the same amount, at least one byte, to both counters, counts
      one click and, in a consistent state, leaves the generators as they were. */
  lemma ClickKeepsConsistent(s: GameState)
    requires Consistent(s)
    ensures var t := Clicked(s);
      && t.generators == s.generators
      && t.bytes - s.bytes == t.totalBytes - s.totalBytes == ClickYield(s.generators) >= 1.0
      && t.clicks == s.clicks + 1
      && Consistent(t) && Progressed(s, t)
  {
    ChainIsFixedPoint(s.generators);
  }

  /** A declined purchase changes nothing, so repeating it changes nothing. */
  lemma DeclinedPurchaseIsNoOp(s: GameState, id: int)
    requires !CanBuy(s, id)
    ensures Purchased(s, id) == s
    ensures Purchased(Purchased(s, id), id) == s
    ensures PurchaseOutcome(s, id) != Bought
  {
  }

  /** Raising one generator's count by one keeps the unlock chain once the
      unlock pass has run: only the next tier's gate can open. */
  lemma {:induction false} BumpKeepsChain(gs: seq<Generator>, id: nat, g: Generator)
    requires UnlockChain(gs) && id < |gs|
    requires g.count == gs[id].count + 1 && g.unlocked == gs[id].unlocked
    ensures UnlockChain(Unlocks(gs[id := g]))
  {
    var us := gs[id := g];
    var r := Unlocks(us);
    forall j | 0 <= j < |us| ensures r[j].unlocked == (j == 0 || us[j - 1].count >= UnlockThreshold) {
      if j > 0 && j - 1 == id {
        assert gs[j].unlocked == (gs[j - 1].count >= UnlockThreshold);
      } else if j > 0 {
        assert us[j - 1] == gs[j - 1];
      }
    }
  }

  /** Repricing the bought tier by the 1.15 curve keeps every tier on it. */
  lemma BumpKeepsTiers(gs: seq<Generator>, id: nat)
    requires Tiers(gs) && id < |gs|
    ensures var g := gs[id];
      Tiers(Unlocks(gs[id := g.(count := g.count + 1, cost := CostAt(g.baseCost, g.count + 1))]))
  {
  }

  /** A successful purchase pays the old price out of the spendable bytes
      (which stay non-negative), adds one unit, reprices by the 1.15 curve to a
      higher price, and touches nothing else apart from the unlock flag of the
      next tier. */
  lemma PurchaseEffect(s: GameState, id: int)
    requires Consistent(s) && CanBuy(s, id)
    ensures var t := Purchased(s, id); var g, h := s.generators[id], t.generators[id];
      && t.bytes == s.bytes - g.cost as real >= 0.0
      && h.count == g.count + 1
      && h.cost == CostAt(g.baseCost, h.count) > g.cost
      && t.totalBytes == s.totalBytes && t.clicks == s.clicks
      && t.lastUpdate == s.lastUpdate && t.lastSave == s.lastSave && t.gameStart == s.gameStart
      && (forall j :: 0 <= j < |s.generators| && j != id ==>
            t.generators[j].(unlocked := s.generators[j].unlocked) == s.generators[j])
      && (forall j :: 0 <= j < |s.generators| && j != id + 1 ==>
            t.generators[j].unlocked == s.generators[j].unlocked)
  {
    var g := s.generators[id];
    CatalogueFacts();
    assert g.baseCost == Catalogue[id].baseCost;
    assert g.cost == CostAt(g.baseCost, g.count);
    CostRises(g.baseCost, g.count);
  }

  /** One more unit of a tier, followed by the unlock pass, adds exactly that
      tier's base production to the rate. */
  lemma BumpRaisesRate(gs: seq<Generator>, id: nat, g: Generator)
    requires id < |gs|
    requires g.count == gs[id].count + 1 && g.baseProduction == gs[id].baseProduction
    ensures Rate(Unlocks(gs[id := g])) == Rate(gs) + g.baseProduction
  {
    var us := gs[id := g];
    OneMoreUnit(gs[id], g);
    UnlocksKeepRate(us);
    RateReplace(gs, id, g);
  }

  lemma OneMoreUnit(g: Generator, h: Generator)
    requires h.count == g.count + 1 && h.baseProduction == g.baseProduction
    ensures Output(h) == Output(g) + g.baseProduction
  {
    var c, b := g.count as real, g.baseProduction;
    assert Output(h) == (c + 1.0) * b == c * b + b;
  }

  /** A purchase adds exactly the bought tier's base production to the rate. */
  lemma PurchaseRaisesRate(s: GameState, id: int)
    requires CanBuy(s, id)
    ensures Rate(Purchased(s, id).generators) == Rate(s.generators) + s.generators[id].baseProduction
  {
    var g := s.generators[id];
    BumpRaisesRate(s.generators, id, g.(count := g.count + 1, cost := CostAt(g.baseCost, g.count + 1)));
  }

  /** Purchases keep a consistent state consistent and lose no progress. */
  lemma PurchaseKeepsConsistent(s: GameState, id: int)
    requires Consistent(s)
    ensures Consistent(Purchased(s, id)) && Progressed(s, Purchased(s, id))
  {
    if CanBuy(s, id) {
      var g := s.generators[id];
      var g' := g.(count := g.count + 1, cost := CostAt(g.baseCost, g.count + 1));
      BumpKeepsChain(s.generators, id, g');
      BumpKeepsTiers(s.generators, id);
      PurchaseEffect(s, id);
    }
  }

  /** A tick forward in time adds rate times elapsed seconds, never negative,
      to both counters and records the tick time. */
  lemma TickKeepsConsistent(s: GameState, now: int)
    requires Consistent(s) && s.lastUpdate <= now
    ensures var t := Ticked(s, now);
      && t.bytes - s.bytes == t.totalBytes - s.totalBytes
          == Rate(s.generators) * (now - s.lastUpdate) as real / 1000.0 >= 0.0
      && t.lastUpdate == now && t.generators == s.generators && t.clicks == s.clicks
      && Consistent(t) && Progressed(s, t)
  {
    TiersProduce(s.generators);
    RateNonNegative(s.generators);
    var r, e := Rate(s.generators), Elapsed(s.lastUpdate, now);
    assert e >= 0.0;
    assert r * e >= 0.0;
  }

  /** The byte bounds 0 <= bytes <= total_bytes hold on their own, whatever
      the generators: a purchase only spends bytes that are there. */
  lemma PurchaseKeepsByteBounds(s: GameState, id: int)
    requires 0.0 <= s.bytes <= s.totalBytes
    ensures var t := Purchased(s, id); 0.0 <= t.bytes <= t.totalBytes
  {
  }

  /** A click adds the same amount to both counters. */
  lemma ClickKeepsByteBounds(s: GameState)
    requires |s.generators| > 0 && 0.0 <= s.bytes <= s.totalBytes
    ensures var t := Clicked(s); 0.0 <= t.bytes <= t.totalBytes
  {
  }

  /** A tick keeps the bounds when production is non-negative and time moves
      forward. */
  lemma TickKeepsByteBounds(s: GameState, now: int)
    requires NonNegativeProduction(s.generators) && s.lastUpdate <= now
    requires 0.0 <= s.bytes <= s.totalBytes
    ensures var t := Ticked(s, now); 0.0 <= t.bytes <= t.totalBytes
  {
    RateNonNegative(s.generators);
    var r, e := Rate(s.generators), Elapsed(s.lastUpdate, now);
    assert e >= 0.0;
    assert r * e >= 0.0;
  }

  /** A confirmed new game has zero bytes and clicks, every count zero and
      every price at its base cost, only the first tier unlocked, and its unlock
      pass opens nothing; an unconfirmed one changes nothing. */
  lemma RestartResets(s: GameState, now: int)
    ensures var t := Restarted(s, true, now);
      && t.bytes == t.totalBytes == 0.0 && t.clicks == 0
      && |t.generators| == 7
      && (forall i :: 0 <= i < |t.generators| ==>
            t.generators[i].count == 0 && t.generators[i].cost == t.generators[i].baseCost &&
            t.generators[i].unlocked == (i == 0))
      && t == Fresh(now) && Consistent(t)
    ensures Restarted(s, false, now) == s
  {
    FreshIsConsistent(now);
    CatalogueFacts();
  }

  /** Loading what a save wrote gives back the saved game, except that the
      tick time is now. Only the unlock chain is needed: a game whose bytes went
      negative after the clock stepped back round-trips as well. */
  lemma SaveLoadRoundTrip(s: GameState, current: GameState, saveTime: int, now: int)
    requires UnlockChain(s.generators)
    ensures Loaded(current, Snapshot(Saved(s, saveTime)), now) == s.(lastSave := saveTime, lastUpdate := now)
  {
    ChainIsFixedPoint(s.generators);
  }

  /** Unparsable text or an empty object leaves the running game untouched. */
  lemma LoadKeepsStateOnNoSave(s: GameState, now: int)
    ensures Loaded(s, Malformed, now) == s
    ensures Loaded(s, EmptyObject, now) == s
  {
  }

  /** A loaded game satisfies the gate in one direction: every tier whose
      predecessor has five units is unlocked. */
  lemma LoadOpensGates(s: GameState, t: GameState, now: int)
    ensures var u := Loaded(s, Snapshot(t), now);
      forall i :: 0 <= i < |u.generators| && i > 0 && u.generators[i - 1].count >= UnlockThreshold ==>
        u.generators[i].unlocked
  {
  }

  // ---------------------------------------------------------------------------
  // Worked scenarios

  /** One click on a fresh game gives one byte. */
  lemma FirstClick(now: int)
    ensures var t := Clicked(Fresh(now));
      t.bytes == t.totalBytes == 1.0 && t.clicks == 1
  {
    FreshIsConsistent(now);
  }

  /** Ten auto clickers raise the click yield to 1.1 bytes. */
  lemma TenAutoClickers(s: GameState)
    requires |s.generators| > 0 && s.generators[0].count == 10
    ensures ClickYield(s.generators) == 1.1
  {
  }

  /** Buying the fifth unit of a tier unlocks the next tier within the same
      purchase; with four units it was still locked. */
  lemma FifthUnitOpensNextTier(s: GameState, id: nat)
    requires Consistent(s) && CanBuy(s, id) && id + 1 < |s.generators|
    requires s.generators[id].count == UnlockThreshold - 1
    ensures !s.generators[id + 1].unlocked
    ensures Purchased(s, id).generators[id + 1].unlocked
  {
  }

  /** Ten seconds at two bytes per second give twenty bytes. */
  lemma TenSecondsAtTwoPerSecond(s: GameState)
    requires Rate(s.generators) == 2.0
    ensures Ticked(s, s.lastUpdate + 10000).bytes == s.bytes + 20.0
  {
  }
}
