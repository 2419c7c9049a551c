/**
 * `WorldService` (world.service.ts): the world lifecycle. It keeps the ground
 * plot across soft resets, builds a fresh cart on every `init`, spawns coins
 * through a chain of single-shot timers, and folds the outgoing run's
 * distance into the records.
 *
 * The browser's timers are the field `timers`; `Fire(id)` is the browser
 * running pending timeout `id`. Each `addCoins` call is one `SpawnChain`;
 * a pending timer names the chain whose `createCoin` it will run.
 */
module WorldServiceModel {
  import opened Base
  import opened Physics
  import opened Terrain
  import opened CartAssembly
  import opened Timers
  import opened Models

  const CoinMaxCount: nat := 15
  /** The torque `init`'s promise handler applies once spawning resolves. */
  const PropulsionTorque: real := 0.025

  /** `plotGround(-100, 0, 50000)`. */
  const GroundX: real := -100.0
  const GroundY: real := 0.0
  const GroundWidth: real := 50000.0

  /** `createCart(0, -100, 75, 45, 10, 10, 15)`. */
  const CartX: real := 0.0
  const CartY: real := -100.0
  const CartBaseWidth: real := 75.0
  const CartHeight: real := 45.0
  const CartSideOffset: real := 10.0
  const CartThickness: real := 10.0
  const CartWheelRadius: real := 15.0

  /** `addCoins(0, -150, CoinMaxCount, 1000, 100)`; the delays are not modelled. */
  const CoinX: real := 0.0
  const CoinY: real := -150.0

  /** The closure state of one `addCoins` call: where its coins appear and how many it waits for. */
  datatype SpawnChain = SpawnChain(x: real, y: real, quantity: int)

  /** Every chain is the one `init` starts: coins at `(CoinX, CoinY)`, `CoinMaxCount` of them. */
  ghost predicate InitChains(chains: seq<SpawnChain>)
  {
    forall i :: 0 <= i < |chains| ==>
      chains[i].x == CoinX && chains[i].y == CoinY && chains[i].quantity == CoinMaxCount
  }

  /**
   * How the pending timers relate to the chains: the held id is pending,
   * every pending timer calls back into a chain already started, and a
   * pending timer that is not held belongs to a chain that a later `init`
   * has left behind.
   */
  ghost predicate ChainTimers(t: TimerTable, held: Option<TimerId>, chains: seq<SpawnChain>)
  {
    && t.Valid()
    && (held.Some? ==> held.value in t.pending)
    && (forall id :: id in t.pending ==> t.pending[id] < |chains|)
    && (forall id :: id in t.pending && held != Some(id) ==> t.pending[id] + 1 < |chains|)
  }

  /**
   * `init` drops the held id without cancelling it and `addCoins` starts a
   * new chain whose first timer is the one held: the timer that was held
   * now belongs to a chain left behind.
   */
  lemma StartChainKeepsTimers(t: TimerTable, held: Option<TimerId>, chains: seq<SpawnChain>, chain: SpawnChain)
    requires ChainTimers(t, held, chains)
    ensures ChainTimers(SetTimeout(t, |chains|), Some(t.nextId), chains + [chain])
  {
  }

  /** A firing that reschedules: the chain's new timer is the one held. */
  lemma RescheduleKeepsTimers(t: TimerTable, held: Option<TimerId>, chains: seq<SpawnChain>, id: TimerId)
    requires ChainTimers(t, held, chains) && id in t.pending
    ensures ChainTimers(SetTimeout(Cancel(Remove(t, id), held), t.pending[id]), Some(t.nextId), chains)
  {
  }

  /** A firing that resolves its chain: no timer is held any more. */
  lemma ResolveKeepsTimers(t: TimerTable, held: Option<TimerId>, chains: seq<SpawnChain>, id: TimerId)
    requires ChainTimers(t, held, chains) && id in t.pending
    ensures ChainTimers(Cancel(Remove(t, id), held), None, chains)
  {
  }

  /**
   * A run with a single chain: every pending timer is the held one and
   * belongs to the latest chain, which holds a timer while fewer than
   * `CoinMaxCount` coins exist and has resolved, with exactly
   * `CoinMaxCount` coins and the propulsion torque, once it holds none.
   */
  ghost predicate SingleChainRun(t: TimerTable, held: Option<TimerId>, chains: seq<SpawnChain>, resolved: set<nat>,
                                 coinCount: nat, torque: real)
  {
    && |chains| > 0
    && (forall id :: id in t.pending ==> held == Some(id) && t.pending[id] == |chains| - 1)
    && (|chains| - 1 in resolved <==> held.None?)
    && (|chains| - 1 in resolved ==> coinCount == CoinMaxCount && torque == PropulsionTorque)
    && (|chains| - 1 !in resolved ==> coinCount < CoinMaxCount && torque == 0.0)
  }

  /** In a single-chain run the timer that fires is the held one, of the latest chain. */
  lemma SingleChainFiresHeld(t: TimerTable, held: Option<TimerId>, chains: seq<SpawnChain>,
                             resolved: set<nat>, coinCount: nat, torque: real, id: TimerId)
    requires ChainTimers(t, held, chains) && id in t.pending
    requires SingleChainRun(t, held, chains, resolved, coinCount, torque)
    ensures held == Some(id) && t.pending[id] == |chains| - 1 && |chains| - 1 !in resolved
    ensures Cancel(Remove(t, id), held).pending == map[]
    ensures coinCount < CoinMaxCount && torque == 0.0
  {
    var rest := Cancel(Remove(t, id), held);
    assert rest.pending.Keys == {};
  }

  /** A firing below `CoinMaxCount` in a single-chain run reschedules, and the run stays single. */
  lemma SingleChainRescheduleKeeps(t: TimerTable, held: Option<TimerId>, chains: seq<SpawnChain>,
                                   resolved: set<nat>, coinCount: nat, torque: real, id: TimerId)
    requires ChainTimers(t, held, chains) && id in t.pending
    requires SingleChainRun(t, held, chains, resolved, coinCount, torque)
    requires coinCount + 1 < CoinMaxCount
    ensures SingleChainRun(SetTimeout(Cancel(Remove(t, id), held), t.pending[id]), Some(t.nextId), chains, resolved,
                           coinCount + 1, torque)
  {
    SingleChainFiresHeld(t, held, chains, resolved, coinCount, torque, id);
    var t' := SetTimeout(Cancel(Remove(t, id), held), t.pending[id]);
    assert t'.pending == map[t.nextId := t.pending[id]];
  }

  /** The firing that brings a single-chain run to `CoinMaxCount` resolves it, with the propulsion torque. */
  lemma SingleChainResolveKeeps(t: TimerTable, held: Option<TimerId>, chains: seq<SpawnChain>,
                                resolved: set<nat>, coinCount: nat, torque: real, id: TimerId)
    requires ChainTimers(t, held, chains) && id in t.pending
    requires SingleChainRun(t, held, chains, resolved, coinCount, torque)
    requires coinCount + 1 >= CoinMaxCount
    ensures SingleChainRun(Cancel(Remove(t, id), held), None, chains, resolved + {t.pending[id]},
                           coinCount + 1, PropulsionTorque)
  {
    SingleChainFiresHeld(t, held, chains, resolved, coinCount, torque, id);
  }

  /**
   * The coin-spawning part of the service's invariant, over plain values:
   * the timer table against the chains, every chain started by `init`, the
   * propulsion torque only once `coinCount` reached `CoinMaxCount`, and the
   * single-chain facts while `single` holds.
   */
  ghost predicate CoinState(t: TimerTable, held: Option<TimerId>, chains: seq<SpawnChain>, resolved: set<nat>,
                            coinCount: nat, torque: real, single: bool)
  {
    && ChainTimers(t, held, chains)
    && (forall c :: c in resolved ==> c < |chains|)
    && InitChains(chains)
    && (torque == 0.0 || (torque == PropulsionTorque && coinCount >= CoinMaxCount))
    && (single ==> SingleChainRun(t, held, chains, resolved, coinCount, torque))
  }

  /** A firing below `CoinMaxCount` keeps `CoinState`: the chain reschedules and its new timer is held. */
  lemma RescheduleKeepsCoinState(t: TimerTable, held: Option<TimerId>, chains: seq<SpawnChain>, resolved: set<nat>,
                                 coinCount: nat, torque: real, single: bool, id: TimerId)
    requires CoinState(t, held, chains, resolved, coinCount, torque, single) && id in t.pending
    requires coinCount + 1 < CoinMaxCount
    ensures CoinState(SetTimeout(Cancel(Remove(t, id), held), t.pending[id]), Some(t.nextId), chains, resolved,
                      coinCount + 1, torque, single)
  {
    if single {
      SingleChainRescheduleKeeps(t, held, chains, resolved, coinCount, torque, id);
    }
    RescheduleKeepsTimers(t, held, chains, id);
  }

  /** A firing at `CoinMaxCount` keeps `CoinState`: the chain resolves, no timer is held, the torque is set. */
  lemma ResolveKeepsCoinState(t: TimerTable, held: Option<TimerId>, chains: seq<SpawnChain>, resolved: set<nat>,
                              coinCount: nat, torque: real, single: bool, id: TimerId)
    requires CoinState(t, held, chains, resolved, coinCount, torque, single) && id in t.pending
    requires coinCount + 1 >= CoinMaxCount
    ensures CoinState(Cancel(Remove(t, id), held), None, chains, resolved + {t.pending[id]},
                      coinCount + 1, PropulsionTorque, single)
  {
    if single {
      SingleChainResolveKeeps(t, held, chains, resolved, coinCount, torque, id);
    }
    ResolveKeepsTimers(t, held, chains, id);
  }

  /**
   * `init` keeps `CoinState`: with the registry emptied, the torque zeroed
   * and a new chain started whose first timer is held, the run is single
   * exactly when no timer was pending.
   */
  lemma InitKeepsCoinState(t: TimerTable, held: Option<TimerId>, chains: seq<SpawnChain>, resolved: set<nat>,
                           coinCount: nat, torque: real, single: bool)
    requires CoinState(t, held, chains, resolved, coinCount, torque, single)
    ensures CoinState(SetTimeout(Cancel(t, None), |chains|), Some(t.nextId), chains + [SpawnChain(CoinX, CoinY, CoinMaxCount)],
                      resolved, 0, 0.0, t.pending == map[])
  {
    StartChainKeepsTimers(t, held, chains, SpawnChain(CoinX, CoinY, CoinMaxCount));
    var chains' := chains + [SpawnChain(CoinX, CoinY, CoinMaxCount)];
    assert InitChains(chains') by {
      forall i | 0 <= i < |chains'|
        ensures chains'[i].x == CoinX && chains'[i].y == CoinY && chains'[i].quantity == CoinMaxCount
      {
        if i < |chains| {
          assert chains'[i] == chains[i];
        }
      }
    }
  }

  class WorldService {
    var groundPlot: seq<GroundSegment>
    var coins: seq<Body>
    var ground: Option<Composite>
    var coinTimeoutId: Option<TimerId>
    /** The live engine, named by the order in which `Engine.create` made it. */
    var engine: Option<nat>
    var cart: Option<Composite>
    var torque: real
    /** The current value of `records$`. */
    var records: Option<Records>
    var timers: TimerTable
    /** Every `addCoins` call so far, oldest first. */
    var chains: seq<SpawnChain>
    /** The chains whose promise has resolved. */
    var resolved: set<nat>
    var enginesCreated: nat
    /** The current run's chain is the only one with timers since the latest `init`. */
    ghost var singleChain: bool

    ghost predicate Valid()
      reads this
    {
      && CoinState(timers, coinTimeoutId, chains, resolved, |coins|, torque, singleChain)
      && (engine.Some? <==> |chains| > 0)
      && (engine.Some? ==> engine.value < enginesCreated && cart.Some? && ground.Some? && groundPlot != [])
      && (cart.Some? ==> |cart.value.bodies| == 3)
    }

    constructor ()
      ensures Valid()
      ensures groundPlot == [] && coins == [] && ground.None? && coinTimeoutId.None? && engine.None?
      ensures cart.None? && torque == 0.0 && records.None? && timers == NoTimers && chains == [] && resolved == {}
    {
      groundPlot, coins, ground, coinTimeoutId := [], [], None, None;
      engine, cart, torque, records := None, None, 0.0, None;
      timers, chains, resolved, enginesCreated := NoTimers, [], {}, 0;
      singleChain := false;
    }

    /** `getCart`: the chassis, body 0 of the cart, when there is a cart. */
    function GetCart(): (chassis: Option<Body>)
      reads this
      requires Valid()
      ensures chassis.Some? <==> cart.Some?
      ensures chassis.Some? ==> chassis.value == cart.value.bodies[0]
    {
      if cart.Some? then Some(cart.value.bodies[0]) else None
    }

    /** `getRecords`: the records folded with the chassis' current x. */
    function GetRecords(): (r: Records)
      reads this
      requires Valid()
      ensures r == NextRecords(records, if cart.Some? then Some(cart.value.bodies[0].position.x) else None)
    {
      var chassis := GetCart();
      NextRecords(records, if chassis.Some? then Some(chassis.value.position.x) else None)
    }

    /** The value of `world$`: the snapshot of the current engine, chassis and (shared) coin registry. */
    function View(): (view: Option<WorldView>)
      reads this
      requires Valid()
      ensures view.Some? <==> engine.Some?
      ensures view.Some? ==>
        view.value.cart == cart.value.bodies[0] && view.value.coins == coins && view.value.coinMaxCount == CoinMaxCount
    {
      if engine.Some? then Some(WorldView(engine.value, cart.value.bodies[0], coins, CoinMaxCount)) else None
    }

    /**
     * `init(options)`. Records are folded only if an engine already existed;
     * the held timer id is dropped WITHOUT `clearTimeout`, so a chain in
     * flight keeps its pending timer; torque drops to 0; the ground is
     * replotted only when asked to or when none exists; the registry is
     * emptied and a new chain started. `used` counts the random draws taken.
     */
    method Init(recreateGround: bool, draws: seq<real>, fromVertices: FromVertices) returns (used: nat)
      requires Valid()
      requires recreateGround || groundPlot == [] ==> EnoughDraws(GroundX, GroundWidth, draws)
      requires CanPlace(fromVertices, CartX, CartY, CartBaseWidth, CartHeight, CartSideOffset, CartThickness)
      modifies this
      ensures Valid()
      ensures old(engine).Some? ==> records == Some(old(GetRecords()))
      ensures old(engine).None? ==> records == old(records)
      ensures RecordDistance(records) >= RecordDistance(old(records))
      ensures engine == Some(old(enginesCreated)) && enginesCreated == old(enginesCreated) + 1
      ensures recreateGround || old(groundPlot) == [] ==>
                groundPlot == Plot(GroundX, GroundY, 0.0, GroundWidth, draws) && used == 2 * |groundPlot|
      ensures !(recreateGround || old(groundPlot) == []) ==> groundPlot == old(groundPlot) && used == 0
      ensures ground.Some? && BuiltFrom(ground.value.bodies, groundPlot) && ground.value.constraints == []
      ensures cart == Some(CreateCart(CartX, CartY, CartBaseWidth, CartHeight, CartSideOffset, CartThickness,
                                      CartWheelRadius, fromVertices))
      ensures coins == [] && torque == 0.0
      ensures chains == old(chains) + [SpawnChain(CoinX, CoinY, CoinMaxCount)] && resolved == old(resolved)
      // no pending timer is cancelled; one more is scheduled for the new chain and held
      ensures coinTimeoutId == Some(old(timers.nextId))
      ensures timers == SetTimeout(old(timers), |old(chains)|)
      ensures singleChain <==> old(timers.pending) == map[]
    {
      used := ResetRun(recreateGround, draws, fromVertices);
      InitKeepsCoinState(timers, old(coinTimeoutId), chains, resolved, |old(coins)|, old(torque), old(singleChain));
      singleChain := timers.pending == map[];
      AddCoins(CoinX, CoinY, CoinMaxCount);
    }

    /**
     * The part of `init` before `addCoins`: fold the records if an engine
     * exists, drop the held timer id (without cancelling it), zero the
     * torque, make a new engine, refresh the ground, build the cart and empty
     * the coin registry.
     */
    method ResetRun(recreateGround: bool, draws: seq<real>, fromVertices: FromVertices) returns (used: nat)
      requires Valid()
      requires recreateGround || groundPlot == [] ==> EnoughDraws(GroundX, GroundWidth, draws)
      requires CanPlace(fromVertices, CartX, CartY, CartBaseWidth, CartHeight, CartSideOffset, CartThickness)
      modifies this`records, this`coinTimeoutId, this`torque, this`engine, this`enginesCreated
      modifies this`groundPlot, this`ground, this`cart, this`coins
      ensures old(engine).Some? ==> records == Some(old(GetRecords()))
      ensures old(engine).None? ==> records == old(records)
      ensures RecordDistance(records) >= RecordDistance(old(records))
      ensures coinTimeoutId.None? && torque == 0.0 && coins == []
      ensures engine == Some(old(enginesCreated)) && enginesCreated == old(enginesCreated) + 1
      ensures recreateGround || old(groundPlot) == [] ==>
                groundPlot == Plot(GroundX, GroundY, 0.0, GroundWidth, draws) && used == 2 * |groundPlot|
      ensures !(recreateGround || old(groundPlot) == []) ==> groundPlot == old(groundPlot) && used == 0
      ensures groundPlot != []
      ensures ground.Some? && BuiltFrom(ground.value.bodies, groundPlot) && ground.value.constraints == []
      ensures cart == Some(CreateCart(CartX, CartY, CartBaseWidth, CartHeight, CartSideOffset, CartThickness,
                                      CartWheelRadius, fromVertices))
      ensures |cart.value.bodies| == 3
    {
      if engine.Some? {
        records := Some(GetRecords());
      }
      coinTimeoutId := None;
      torque := 0.0;
      engine := Some(enginesCreated);
      enginesCreated := enginesCreated + 1;
      used := RefreshGround(recreateGround, draws);
      cart := Some(CreateCart(CartX, CartY, CartBaseWidth, CartHeight, CartSideOffset, CartThickness,
                              CartWheelRadius, fromVertices));
      coins := [];
    }

    /** `init`'s ground: replot only if asked to or if there is no plot yet, then rebuild the bodies. */
    method RefreshGround(recreateGround: bool, draws: seq<real>) returns (used: nat)
      requires recreateGround || groundPlot == [] ==> EnoughDraws(GroundX, GroundWidth, draws)
      modifies this`groundPlot, this`ground
      ensures recreateGround || old(groundPlot) == [] ==>
                groundPlot == Plot(GroundX, GroundY, 0.0, GroundWidth, draws) && used == 2 * |groundPlot|
      ensures !(recreateGround || old(groundPlot) == []) ==> groundPlot == old(groundPlot) && used == 0
      ensures old(groundPlot) != [] ==> groundPlot != []
      ensures recreateGround || old(groundPlot) == [] ==> groundPlot != []
      ensures ground.Some? && BuiltFrom(ground.value.bodies, groundPlot) && ground.value.constraints == []
    {
      used := 0;
      if recreateGround || |groundPlot| == 0 {
        used := PlotGround(GroundX, GroundY, GroundWidth, draws);
      }
      var g := CreateGround();
      ground := Some(g);
    }

    /** `plotGround(x, y, width)`: clear the plot, then lay segments until `x` passes the parameter `width`. */
    method PlotGround(x: real, y: real, width: real, draws: seq<real>) returns (used: nat)
      requires EnoughDraws(x, width, draws)
      modifies this`groundPlot
      ensures groundPlot == Plot(x, y, 0.0, width, draws)
      ensures used == 2 * |groundPlot| <= |draws|
    {
      groundPlot := [];
      var cx, cy := x, y;
      var vY := 0.0;
      var k := 0;
      ghost var rest := draws;
      var done := false;
      // `do { … } while (x <= width)`: the body's own `width` is scoped to the
      // block, so the guard reads the parameter.
      while !done
        invariant vY >= 0.0 && k == 2 * |groundPlot| && k <= |draws| && rest == draws[k..]
        invariant !done ==> PlotProgress(groundPlot, Plot(x, y, 0.0, width, draws), cx, cy, vY, width, rest)
        invariant done ==> groundPlot == Plot(x, y, 0.0, width, draws)
        decreases |draws| - k
      {
        assert rest[0] == draws[k] && rest[1] == draws[k + 1] && rest[2..] == draws[k + 2..];
        var w := SegmentWidth(draws[k]);
        var deltaY := SegmentRise(draws[k + 1], vY);
        if cx + w <= width {
          PlotPrefixStep(groundPlot, Plot(x, y, 0.0, width, draws), cx, cy, vY, width, rest, w, deltaY);
        } else {
          PlotPrefixStop(groundPlot, Plot(x, y, 0.0, width, draws), cx, cy, vY, width, rest, w, deltaY);
        }
        var segment := MakeSegment(cx, cy, w, deltaY);
        groundPlot := groundPlot + [segment];
        cx := cx + w;
        cy := cy + deltaY;
        vY := vY + VarianceStep;
        k := k + 2;
        rest := rest[2..];
        done := !(cx <= width);
      }
      used := k;
    }

    /** `createGround`: one static body per plot entry, in plot order. */
    method CreateGround() returns (g: Composite)
      ensures BuiltFrom(g.bodies, groundPlot) && g.constraints == []
    {
      var segments: seq<Body> := [];
      for i := 0 to |groundPlot|
        invariant BuiltFrom(segments, groundPlot[..i])
      {
        segments := segments + [GroundBody(groundPlot[i])];
      }
      assert groundPlot[..|groundPlot|] == groundPlot;
      g := Composite(segments, []);
    }

    /** `clearCoinTimeout`: cancel the held timer, if any, and forget its id. */
    method ClearCoinTimeout()
      modifies this`timers, this`coinTimeoutId
      ensures timers == Cancel(old(timers), old(coinTimeoutId)) && coinTimeoutId.None?
    {
      if coinTimeoutId.Some? {
        timers := Remove(timers, coinTimeoutId.value);
      }
      coinTimeoutId := None;
    }

    /** `scheduleCoinCreation`: clear the held timer first, then hold a new one running chain `c`. */
    method ScheduleCoinCreation(c: nat)
      requires timers.Valid()
      modifies this`timers, this`coinTimeoutId
      ensures timers == SetTimeout(Cancel(old(timers), old(coinTimeoutId)), c)
      ensures coinTimeoutId == Some(old(timers.nextId))
    {
      ClearCoinTimeout();
      var id := timers.nextId;
      timers := SetTimeout(timers, c);
      coinTimeoutId := Some(id);
    }

    /** `addCoins(x, y, quantity, …)`: start a new chain and schedule its first firing. */
    method AddCoins(x: real, y: real, quantity: int)
      requires timers.Valid()
      modifies this`chains, this`timers, this`coinTimeoutId
      ensures chains == old(chains) + [SpawnChain(x, y, quantity)]
      ensures timers == SetTimeout(Cancel(old(timers), old(coinTimeoutId)), |old(chains)|)
      ensures coinTimeoutId == Some(old(timers.nextId))
    {
      chains := chains + [SpawnChain(x, y, quantity)];
      ClearCoinTimeout();
      ScheduleCoinCreation(|chains| - 1);
    }

    /**
     * `createCoin` of chain `c`: cancel the held timer; with no engine, stop
     * there; otherwise add one coin and reschedule while the registry is short
     * of the quantity, else resolve, which runs `init`'s handler setting the
     * propulsion torque.
     */
    method CreateCoin(c: nat)
      requires c < |chains| && timers.Valid()
      modifies this`timers, this`coinTimeoutId, this`coins, this`resolved, this`torque
      ensures old(engine).None? ==>
        && timers == Cancel(old(timers), old(coinTimeoutId)) && coinTimeoutId.None?
        && coins == old(coins) && resolved == old(resolved) && torque == old(torque)
      ensures old(engine).Some? ==> coins == old(coins) + [CoinBody(old(chains[c]).x, old(chains[c]).y)]
      ensures old(engine).Some? && |coins| < old(chains[c]).quantity ==>
        && timers == SetTimeout(Cancel(old(timers), old(coinTimeoutId)), c)
        && coinTimeoutId == Some(old(timers.nextId))
        && resolved == old(resolved) && torque == old(torque)
      ensures old(engine).Some? && |coins| >= old(chains[c]).quantity ==>
        && timers == Cancel(old(timers), old(coinTimeoutId)) && coinTimeoutId.None?
        && resolved == old(resolved) + {c} && torque == PropulsionTorque
    {
      ClearCoinTimeout();
      if engine.None? {
        return;
      }
      var chain := chains[c];
      coins := coins + [CoinBody(chain.x, chain.y)];
      if |coins| < chain.quantity {
        ScheduleCoinCreation(c);
      } else {
        resolved := resolved + {c};
        torque := PropulsionTorque;
      }
    }

    /**
     * The browser runs pending timeout `id`. Exactly one coin is added; the
     * chain reschedules (and its new timer is the only one held) iff the
     * registry is still short of `CoinMaxCount`, and otherwise resolves and
     * the torque becomes the propulsion torque. The timer that was held is
     * cancelled either way.
     */
    method Fire(id: TimerId)
      requires Valid() && id in timers.pending
      modifies this`timers, this`coinTimeoutId, this`coins, this`resolved, this`torque
      ensures Valid()
      ensures coins == old(coins) + [CoinBody(CoinX, CoinY)]
      ensures var c := old(timers.pending[id]);
        var rest := Cancel(Remove(old(timers), id), old(coinTimeoutId));
        && (|coins| < CoinMaxCount ==>
              timers == SetTimeout(rest, c) && coinTimeoutId == Some(old(timers.nextId))
              && resolved == old(resolved) && torque == old(torque))
        && (|coins| >= CoinMaxCount ==>
              timers == rest && coinTimeoutId.None?
              && resolved == old(resolved) + {c} && torque == PropulsionTorque)
    {
      var c := timers.pending[id];
      assert engine.Some? && chains[c].quantity == CoinMaxCount;
      timers := Remove(timers, id);
      CreateCoin(c);
      if |coins| < CoinMaxCount {
        RescheduleKeepsCoinState(old(timers), old(coinTimeoutId), chains, old(resolved), |old(coins)|, old(torque),
                                 singleChain, id);
      } else {
        ResolveKeepsCoinState(old(timers), old(coinTimeoutId), chains, old(resolved), |old(coins)|, old(torque),
                              singleChain, id);
      }
    }

    /** The cart as the physics engine leaves it after a step (foreign): the chassis moved. */
    method PhysicsStep(position: Vector, velocity: Vector)
      requires Valid()
      modifies this`cart
      ensures Valid()
      ensures old(cart).None? ==> cart.None?
      ensures old(cart).Some? ==>
        cart == Some(old(cart.value).(bodies := old(cart.value.bodies)[0 := old(cart.value.bodies[0]).(position := position, velocity := velocity)]))
    {
      if cart.Some? {
        var bodies := cart.value.bodies;
        cart := Some(cart.value.(bodies := bodies[0 := bodies[0].(position := position, velocity := velocity)]));
      }
    }

    /** The `afterUpdate` hook: both wheels get the current torque. */
    method AfterUpdate()
      requires Valid()
      modifies this`cart
      ensures Valid()
      ensures old(cart).None? ==> cart.None?
      ensures old(cart).Some? ==> cart.Some? && cart.value.constraints == old(cart.value.constraints)
      ensures old(cart).Some? ==>
        var b := old(cart.value.bodies);
        cart.value.bodies == [b[0], b[1].(torque := torque), b[2].(torque := torque)]
    {
      if cart.Some? {
        var b := cart.value.bodies;
        cart := Some(cart.value.(bodies := [b[0], b[1].(torque := torque), b[2].(torque := torque)]));
      }
    }
  }

  /** While one chain runs alone, at most one timer is pending. */
  lemma SingleChainHoldsOneTimer(s: WorldService)
    requires s.Valid() && s.singleChain
    ensures |s.timers.pending| <= 1
  {
    AtMostOnePending(s.timers, s.coinTimeoutId);
  }
}
