/**
 * `WorldComponent` (world.component.ts): the older, self-contained version
 * of the world. `initWorld` runs once; it lays its own ground, builds a cart
 * and starts a single coin-spawn chain whose coin count lives in the
 * closure of `addCoins`. When the chain resolves, the propulsion torque is
 * switched on, and every `afterUpdate` copies it onto both wheels.
 *
 * The browser's timers are the field `timers`; `Fire(id)` is the browser
 * running pending timeout `id`. The engine's world is represented by what
 * was added to it: `ground`, `cart` and the coins in `coins`.
 */
module WorldComponentModel {
  import opened Base
  import opened Physics
  import opened Terrain
  import opened CartAssembly
  import opened Timers
  import opened Models

  /** The torque `initWorld`'s promise handler applies once spawning resolves. */
  const PropulsionTorque: real := 0.025

  /** `createGround(0, 0, 50000)`. */
  const GroundX: real := 0.0
  const GroundY: real := 0.0
  const GroundWidth: real := 50000.0

  /** `createCart(100, -100, 75, 45, 10, 10, 15)`. */
  const CartX: real := 100.0
  const CartY: real := -100.0
  const CartBaseWidth: real := 75.0
  const CartHeight: real := 45.0
  const CartSideOffset: real := 10.0
  const CartThickness: real := 10.0
  const CartWheelRadius: real := 15.0

  /** `addCoins(100, -150, 15, 1000, 100)`; the delays are not modelled. */
  const CoinX: real := 100.0
  const CoinY: real := -150.0
  const CoinQuantity: int := 15

  /** The one callback the component's timers run: the chain's `createCoin`. */
  const CreateCoinCallback: nat := 0

  /**
   * The closure state of the `addCoins` call: where its coins appear, how
   * many it waits for, its local `count`, and whether it has resolved.
   */
  datatype Spawn = Spawn(x: real, y: real, quantity: int, count: int, resolved: bool)

  /**
   * What one coin-creating firing does to the closure state: `count++`, and
   * resolve once the count reaches `quantity`. A resolved chain stays resolved.
   */
  function CoinCreated(s: Spawn): (t: Spawn)
    ensures t.x == s.x && t.y == s.y && t.quantity == s.quantity
    ensures t.count == s.count + 1
    ensures t.resolved <==> s.resolved || t.count >= s.quantity
  {
    s.(count := s.count + 1, resolved := s.resolved || s.count + 1 >= s.quantity)
  }

  /**
   * The closure state after `n` coin-creating firings: the count has grown by
   * `n`, and the chain has resolved iff it already had or some firing
   * brought the count to `quantity`.
   */
  function SpawnAfter(s: Spawn, n: nat): (t: Spawn)
    ensures t.x == s.x && t.y == s.y && t.quantity == s.quantity
    ensures t.count == s.count + n
    ensures t.resolved <==> s.resolved || (n > 0 && s.count + n >= s.quantity)
  {
    if n == 0 then s else CoinCreated(SpawnAfter(s, n - 1))
  }

  /**
   * Started fresh, the chain has counted exactly `n` coins after `n`
   * firings and has resolved exactly when `n` reached `quantity`.
   */
  lemma {:induction false} SpawnResolvesAtQuantity(x: real, y: real, quantity: int, n: nat)
    requires 1 <= quantity && n <= quantity
    ensures SpawnAfter(Spawn(x, y, quantity, 0, false), n).count == n
    ensures SpawnAfter(Spawn(x, y, quantity, 0, false), n).resolved <==> n == quantity
    ensures SpawnAfter(Spawn(x, y, quantity, 0, false), n).x == x
    ensures SpawnAfter(Spawn(x, y, quantity, 0, false), n).y == y
    ensures SpawnAfter(Spawn(x, y, quantity, 0, false), n).quantity == quantity
  {
    if n > 0 {
      SpawnResolvesAtQuantity(x, y, quantity, n - 1);
    }
  }

  /**
   * The chain's closure state against the rest of the component: its coins
   * are the ones counted, all at its spawn point; it holds a timer exactly
   * while unresolved; it resolves with `quantity` coins and the propulsion
   * torque, and until then the torque is zero.
   */
  ghost predicate SpawnState(s: Spawn, holding: bool, coins: seq<Body>, torque: real)
  {
    && 1 <= s.quantity
    && s.count == |coins|
    && (forall i :: 0 <= i < |coins| ==> coins[i] == CoinBody(s.x, s.y))
    && (s.resolved <==> !holding)
    && (s.resolved ==> s.count == s.quantity && torque == PropulsionTorque)
    && (!s.resolved ==> s.count < s.quantity && torque == 0.0)
  }

  class WorldComponent {
    /** Whether `_engine` has been created. */
    var engine: bool
    /** The ground composite added to the engine's world. */
    var ground: Option<Composite>
    var cart: Option<Composite>
    var torque: real
    var coinTimeoutId: Option<TimerId>
    var timers: TimerTable
    /** The coins added to the engine's world. */
    var coins: seq<Body>
    /** The closure state of the `addCoins` call, once made. */
    var spawn: Option<Spawn>

    /** At most the held timer is pending; the chain's state agrees with the coins and the torque. */
    ghost predicate Valid()
      reads this
    {
      && timers.Valid()
      && (coinTimeoutId.Some? ==> timers.pending == map[coinTimeoutId.value := CreateCoinCallback])
      && (coinTimeoutId.None? ==> timers.pending == map[])
      && (cart.Some? ==> |cart.value.bodies| == 3)
      && (spawn.None? ==> coinTimeoutId.None? && coins == [] && torque == 0.0)
      && (spawn.Some? ==> engine && SpawnState(spawn.value, coinTimeoutId.Some?, coins, torque))
    }

    constructor ()
      ensures Valid()
      ensures !engine && ground.None? && cart.None? && torque == 0.0 && coinTimeoutId.None?
      ensures timers == NoTimers && coins == [] && spawn.None?
    {
      engine, ground, cart, torque := false, None, None, 0.0;
      coinTimeoutId, timers, coins, spawn := None, NoTimers, [], None;
    }

    /**
     * `initWorld`, run once by `ngOnInit`: create the engine, add the ground
     * and the cart, and start spawning `CoinQuantity` coins. Rendering and
     * the camera are left out.
     */
    method InitWorld(draws: seq<real>, fromVertices: FromVertices)
      requires Valid() && spawn.None?
      requires EnoughDraws(GroundX, GroundWidth, draws)
      requires CanPlace(fromVertices, CartX, CartY, CartBaseWidth, CartHeight, CartSideOffset, CartThickness)
      modifies this
      ensures Valid()
      ensures engine
      ensures ground.Some? && BuiltFrom(ground.value.bodies, Plot(GroundX, GroundY, 0.0, GroundWidth, draws))
      ensures ground.value.constraints == []
      ensures cart == Some(CreateCart(CartX, CartY, CartBaseWidth, CartHeight, CartSideOffset, CartThickness,
                                      CartWheelRadius, fromVertices))
      ensures torque == 0.0 && coins == []
      ensures spawn == Some(Spawn(CoinX, CoinY, CoinQuantity, 0, false))
      ensures timers.pending == map[old(timers.nextId) := CreateCoinCallback]
      ensures timers.nextId == old(timers.nextId) + 1
      ensures coinTimeoutId == Some(old(timers.nextId))
    {
      engine := true;
      var g := CreateGround(GroundX, GroundY, GroundWidth, draws);
      ground := Some(g);
      cart := Some(CreateCart(CartX, CartY, CartBaseWidth, CartHeight, CartSideOffset, CartThickness,
                              CartWheelRadius, fromVertices));
      AddCoins(CoinX, CoinY, CoinQuantity);
    }

    /**
     * `createGround(x, y, width)`: one static body per pass of the
     * `do … while (x <= width)` loop; the loop body's own `width` is scoped
     * to the block, so the guard reads the parameter.
     */
    method CreateGround(x: real, y: real, width: real, draws: seq<real>) returns (g: Composite)
      requires EnoughDraws(x, width, draws)
      ensures BuiltFrom(g.bodies, Plot(x, y, 0.0, width, draws)) && g.constraints == []
    {
      var segments: seq<Body> := [];
      ghost var plotted: seq<GroundSegment> := [];
      var cx, cy := x, y;
      var vY := 0.0;
      var k := 0;
      ghost var rest := draws;
      var done := false;
      while !done
        invariant vY >= 0.0 && k == 2 * |plotted| && k <= |draws| && rest == draws[k..]
        invariant BuiltFrom(segments, plotted)
        invariant !done ==> PlotProgress(plotted, Plot(x, y, 0.0, width, draws), cx, cy, vY, width, rest)
        invariant done ==> plotted == Plot(x, y, 0.0, width, draws)
        decreases |draws| - k
      {
        assert rest[0] == draws[k] && rest[1] == draws[k + 1] && rest[2..] == draws[k + 2..];
        var w := SegmentWidth(draws[k]);
        var deltaY := SegmentRise(draws[k + 1], vY);
        if cx + w <= width {
          PlotPrefixStep(plotted, Plot(x, y, 0.0, width, draws), cx, cy, vY, width, rest, w, deltaY);
        } else {
          PlotPrefixStop(plotted, Plot(x, y, 0.0, width, draws), cx, cy, vY, width, rest, w, deltaY);
        }
        var segment := MakeSegment(cx, cy, w, deltaY);
        BuiltFromAppend(segments, plotted, segment);
        segments := segments + [GroundBody(segment)];
        plotted := plotted + [segment];
        cx := cx + w;
        cy := cy + deltaY;
        vY := vY + VarianceStep;
        k := k + 2;
        rest := rest[2..];
        done := !(cx <= width);
      }
      g := Composite(segments, []);
    }

    /** `clearCoinTimeout`: cancel the held timer, if any, and forget its id. */
    method ClearCoinTimeout()
      modifies this`timers, this`coinTimeoutId
      ensures timers == Cancel(old(timers), old(coinTimeoutId)) && coinTimeoutId.None?
    {
      if coinTimeoutId.Some? {
        timers := Remove(timers, coinTimeoutId.value);
      }
      coinTimeoutId := None;
    }

    /** `scheduleCoinCreation`: clear the held timer first, then hold a new one running `createCoin`. */
    method ScheduleCoinCreation()
      requires timers.Valid()
      modifies this`timers, this`coinTimeoutId
      ensures timers == SetTimeout(Cancel(old(timers), old(coinTimeoutId)), CreateCoinCallback)
      ensures coinTimeoutId == Some(old(timers.nextId))
    {
      ClearCoinTimeout();
      var id := timers.nextId;
      timers := SetTimeout(timers, CreateCoinCallback);
      coinTimeoutId := Some(id);
    }

    /** `addCoins(x, y, quantity, …)`: a fresh closure with `count = 0`, and its first firing scheduled. */
    method AddCoins(x: real, y: real, quantity: int)
      requires timers.Valid()
      modifies this`spawn, this`timers, this`coinTimeoutId
      ensures spawn == Some(Spawn(x, y, quantity, 0, false))
      ensures timers == SetTimeout(Cancel(old(timers), old(coinTimeoutId)), CreateCoinCallback)
      ensures coinTimeoutId == Some(old(timers.nextId))
    {
      spawn := Some(Spawn(x, y, quantity, 0, false));
      ClearCoinTimeout();
      ScheduleCoinCreation();
    }

    /**
     * `createCoin`: cancel the held timer; with no engine, stop there;
     * otherwise add one coin to the world, count it, and reschedule while
     * `count < quantity`, else resolve, which runs `initWorld`'s handler
     * setting the propulsion torque.
     */
    method CreateCoin()
      requires spawn.Some? && timers.Valid()
      modifies this`timers, this`coinTimeoutId, this`coins, this`spawn, this`torque
      ensures !engine ==>
        && timers == Cancel(old(timers), old(coinTimeoutId)) && coinTimeoutId.None?
        && coins == old(coins) && spawn == old(spawn) && torque == old(torque)
      ensures engine ==>
        && coins == old(coins) + [CoinBody(old(spawn.value).x, old(spawn.value).y)]
        && spawn == Some(CoinCreated(old(spawn.value)))
      ensures engine && spawn.value.count < spawn.value.quantity ==>
        && timers == SetTimeout(Cancel(old(timers), old(coinTimeoutId)), CreateCoinCallback)
        && coinTimeoutId == Some(old(timers.nextId)) && torque == old(torque)
      ensures engine && spawn.value.count >= spawn.value.quantity ==>
        && timers == Cancel(old(timers), old(coinTimeoutId)) && coinTimeoutId.None?
        && torque == PropulsionTorque
    {
      ClearCoinTimeout();
      if !engine {
        return;
      }
      var s := spawn.value;
      coins := coins + [CoinBody(s.x, s.y)];
      var count := s.count + 1;
      if count < s.quantity {
        spawn := Some(s.(count := count));
        ScheduleCoinCreation();
      } else {
        spawn := Some(s.(count := count, resolved := true));
        torque := PropulsionTorque;
      }
    }

    /**
     * The browser runs pending timeout `id`, which can only be the held one.
     * One coin is added and counted; the chain reschedules, holding the
     * single new timer, iff the count is still short of the quantity, and
     * otherwise resolves with no timer left and the propulsion torque set.
     */
    method Fire(id: TimerId)
      requires Valid() && id in timers.pending
      modifies this`timers, this`coinTimeoutId, this`coins, this`spawn, this`torque
      ensures Valid() && |timers.pending| <= 1
      ensures old(spawn).Some? && spawn == Some(CoinCreated(old(spawn.value)))
      ensures coins == old(coins) + [CoinBody(old(spawn.value).x, old(spawn.value).y)]
      ensures spawn.value.count < spawn.value.quantity ==>
        && !spawn.value.resolved && torque == 0.0
        && timers.pending == map[old(timers.nextId) := CreateCoinCallback]
        && timers.nextId == old(timers.nextId) + 1
        && coinTimeoutId == Some(old(timers.nextId))
      ensures spawn.value.count >= spawn.value.quantity ==>
        && spawn.value.resolved && spawn.value.count == spawn.value.quantity && torque == PropulsionTorque
        && timers.pending == map[] && timers.nextId == old(timers.nextId) && coinTimeoutId.None?
    {
      timers := Remove(timers, id);
      CreateCoin();
    }

    /** The `afterUpdate` hook: both wheels get the current torque. */
    method AfterUpdate()
      requires Valid()
      modifies this`cart
      ensures Valid()
      ensures old(cart).None? ==> cart.None?
      ensures old(cart).Some? ==> cart.Some? && cart.value.constraints == old(cart.value.constraints)
      ensures old(cart).Some? ==>
        var b := old(cart.value.bodies);
        cart.value.bodies == [b[0], b[1].(torque := torque), b[2].(torque := torque)]
    {
      if cart.Some? {
        var b := cart.value.bodies;
        cart := Some(cart.value.(bodies := [b[0], b[1].(torque := torque), b[2].(torque := torque)]));
      }
    }
  }
}
