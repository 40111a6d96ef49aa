/** The running game: the page script's global game_state, updated in place by
    the click, purchase, tick, new-game, save and load handlers. Every method is
    proved to leave the object in the state the matching function of module
    Rules computes from the old one. */
module Session {
  import opened Generators
  import opened Rules

  class Game {
    var bytes: real
    var totalBytes: real
    var clicks: nat
    var generators: seq<Generator>
    var lastSave: int
    var gameStart: int
    var lastUpdate: int

    /** The whole record as a value. */
    function State(): GameState
      reads this
    {
      GameState(bytes, totalBytes, clicks, generators, lastSave, gameStart, lastUpdate)
    }

    /** The game as the page creates it at load time `now`. */
    constructor (now: int)
      ensures State() == Fresh(now) && Consistent(State())
    {
      bytes, totalBytes, clicks := 0.0, 0.0, 0;
      generators := Catalogue;
      lastSave, gameStart, lastUpdate := now, now, now;
      FreshIsConsistent(now);
    }

    /** check_unlocks: one forward pass over the tiers. */
    method CheckUnlocks()
      modifies this
      ensures State() == old(State()).(generators := Unlocks(old(generators)))
    {
      var i := 0;
      while i < |generators|
        invariant 0 <= i <= |generators| == |old(generators)|
        invariant forall j :: 0 <= j < i ==> generators[j] == Unlocks(old(generators))[j]
        invariant forall j :: i <= j < |generators| ==> generators[j] == old(generators)[j]
        invariant State() == old(State()).(generators := generators)
      {
        if !generators[i].unlocked && i > 0 {
          if generators[i - 1].count >= UnlockThreshold {
            generators := generators[i := generators[i].(unlocked := true)];
          }
        }
        i := i + 1;
      }
    }

    /** click_byte. */
    method Click()
      requires |generators| > 0
      modifies this
      ensures State() == Clicked(old(State()))
      ensures old(Consistent(State())) ==> Consistent(State()) && generators == old(generators)
    {
      ghost var before := State();
      bytes := bytes + (1.0 + ClickMultiplier(generators));
      totalBytes := totalBytes + (1.0 + ClickMultiplier(generators));
      clicks := clicks + 1;
      CheckUnlocks();
      if Consistent(before) {
        ClickKeepsConsistent(before);
      }
    }

    /** buy_generator(id). */
    method Buy(id: int) returns (outcome: BuyOutcome)
      modifies this
      ensures outcome == PurchaseOutcome(old(State()), id)
      ensures State() == Purchased(old(State()), id)
      ensures outcome != Bought ==> State() == old(State())
      ensures old(Consistent(State())) ==> Consistent(State())
    {
      ghost var before := State();
      if !(0 <= id < |generators|) {
        return Threw;
      }
      var g := generators[id];
      if bytes >= g.cost as real && g.unlocked {
        bytes := bytes - g.cost as real;
        var count := g.count + 1;
        generators := generators[id := g.(count := count, cost := CostAt(g.baseCost, count))];
        CheckUnlocks();
        outcome := Bought;
      } else {
        outcome := Ignored;
      }
      if Consistent(before) {
        PurchaseKeepsConsistent(before, id);
      }
    }

    /** game_loop at time `now`. */
    method Tick(now: int)
      modifies this
      ensures State() == Ticked(old(State()), now)
      ensures old(Consistent(State())) && old(lastUpdate) <= now ==> Consistent(State())
    {
      ghost var before := State();
      var delta := (now - lastUpdate) as real / 1000.0;
      lastUpdate := now;
      var production := Rate(generators) * delta;
      bytes := bytes + production;
      totalBytes := totalBytes + production;
      if Consistent(before) && before.lastUpdate <= now {
        TickKeepsConsistent(before, now);
      }
    }

    /** save_game at time `now`: stamps the save time and hands back the record
        that is written out. */
    method Save(now: int) returns (snapshot: GameState)
      modifies this
      ensures State() == Saved(old(State()), now)
      ensures snapshot == State()
    {
      lastSave := now;
      snapshot := State();
    }

    /** new_game at time `now`; `confirmed` is the player's answer to the
        confirmation dialog. */
    method NewGame(confirmed: bool, now: int)
      modifies this
      ensures State() == Restarted(old(State()), confirmed, now)
      ensures confirmed ==> State() == Fresh(now) && Consistent(State())
    {
      if confirmed {
        bytes, totalBytes, clicks := 0.0, 0.0, 0;
        generators := Catalogue;
        lastSave, gameStart, lastUpdate := now, now, now;
        CheckUnlocks();
        var _ := Save(now);
        RestartResets(old(State()), now);
      }
    }

    /** load_game at time `now`, given what the save file held. */
    method Load(data: SaveData, now: int)
      modifies this
      ensures State() == Loaded(old(State()), data, now)
    {
      match data {
        case Snapshot(t) =>
          bytes, totalBytes, clicks, generators := t.bytes, t.totalBytes, t.clicks, t.generators;
          lastSave, gameStart := t.lastSave, t.gameStart;
          lastUpdate := now;
          CheckUnlocks();
        case _ =>
      }
    }
  }
}
