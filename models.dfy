/**
 * The game's value models: the records kept across runs (`RecordsModel`),
 * the snapshot published to consumers (`WorldView`) and the statistics
 * computed from both (`StatsModel`).
 */
module Models {
  import opened Base
  import opened Physics

  /**
   * A coin: `Bodies.circle(x, y, 5, { slop: 0 })`, as both the service and
   * the component create it: a circle of radius 5 at rest at `(x, y)`.
   */
  function CoinBody(x: real, y: real): (coin: Body)
    ensures coin.shape == Circle(5.0) && coin.position == Vector(x, y)
    ensures coin.velocity == Origin && coin.torque == 0.0 && coin.options == [Slop(0.0)]
  {
    NewBody(Circle(5.0), Vector(x, y), [Slop(0.0)])
  }

  /** `RecordsModel`: the best distance reached so far. */
  datatype Records = Records(distanceMax: real)

  /** `WorldView`: the engine handle, the chassis body, the coin registry and its intended size. */
  datatype WorldView = WorldView(engine: nat, cart: Body, coins: seq<Body>, coinMaxCount: int)

  /** `StatsModel`; `coinCount` is the source's `coinCoint`. */
  datatype StatsModel = StatsModel(coinCount: int, coinMaxCount: int, velocity: int, distance: int, distanceMax: int)

  /** `Vertices.contains(cart.vertices, point)`, foreign code; supplied by the caller. */
  type Containment = (Body, Vector) -> bool

  /** JavaScript's `Math.round`: the nearest integer, halves rounded up. */
  function Round(x: real): (n: int)
    ensures n as real <= x + 0.5 < n as real + 1.0
  {
    (x + 0.5).Floor
  }

  lemma RoundMonotone(a: real, b: real)
    requires a <= b
    ensures Round(a) <= Round(b)
  {
  }

  /** The record value, or 0 when there is none yet (`prevRecords ? prevRecords.distanceMax : 0`). */
  function RecordDistance(records: Option<Records>): real
  {
    if records.Some? then records.value.distanceMax else 0.0
  }

  /**
   * `getRecords`: the record after a run whose chassis is at `chassisX` (absent
   * when there is no cart): the larger of that distance (0 without a cart) and
   * the previous record (0 without one).
   */
  function NextRecords(previous: Option<Records>, chassisX: Option<real>): (r: Records)
    ensures r.distanceMax >= RecordDistance(previous)
    ensures chassisX.Some? ==> r.distanceMax >= chassisX.value
    ensures chassisX.None? ==> r.distanceMax >= 0.0
    ensures r.distanceMax == RecordDistance(previous)
         || (chassisX.Some? && r.distanceMax == chassisX.value)
         || (chassisX.None? && r.distanceMax == 0.0)
  {
    var currentDist := if chassisX.Some? then chassisX.value else 0.0;
    Records(Max(currentDist, RecordDistance(previous)))
  }

  /**
   * The records after a series of inits whose outgoing runs ended with the
   * chassis at `runs[0]`, `runs[1]`, ...: each init keeps the larger of the
   * record so far and the run's distance.
   */
  function RecordsAfter(start: Option<Records>, runs: seq<real>): (r: Option<Records>)
    ensures runs == [] ==> r == start
    ensures runs != [] ==> r.Some? && r.value.distanceMax >= runs[|runs| - 1]
    ensures runs != [] ==> r.value.distanceMax >= RecordDistance(RecordsAfter(start, runs[..|runs| - 1]))
    ensures runs != [] ==>
              (r.value.distanceMax == runs[|runs| - 1]
               || r.value.distanceMax == RecordDistance(RecordsAfter(start, runs[..|runs| - 1])))
    decreases |runs|
  {
    if runs == [] then start
    else Some(NextRecords(RecordsAfter(start, runs[..|runs| - 1]), Some(runs[|runs| - 1])))
  }

  /** Records never decrease: later inits never report a smaller best distance. */
  lemma {:induction false} RecordsMonotone(start: Option<Records>, runs: seq<real>, k: nat)
    requires k <= |runs|
    ensures RecordDistance(RecordsAfter(start, runs[..k])) <= RecordDistance(RecordsAfter(start, runs))
    decreases |runs|
  {
    if k < |runs| {
      var prefix := runs[..|runs| - 1];
      assert runs[..k] == prefix[..k];
      RecordsMonotone(start, prefix, k);
    } else {
      assert runs[..k] == runs;
    }
  }

  /** After a series of runs the record is at least every run's distance and the starting record. */
  lemma {:induction false} RecordsDominate(start: Option<Records>, runs: seq<real>)
    ensures RecordDistance(RecordsAfter(start, runs)) >= RecordDistance(start)
    ensures forall i :: 0 <= i < |runs| ==> RecordDistance(RecordsAfter(start, runs)) >= runs[i]
    decreases |runs|
  {
    if runs != [] {
      var prefix := runs[..|runs| - 1];
      RecordsDominate(start, prefix);
      forall i | 0 <= i < |runs| - 1
        ensures RecordDistance(RecordsAfter(start, runs)) >= runs[i]
      {
        assert runs[i] == prefix[i];
      }
    }
  }

  /** `coins.filter(o => Vertices.contains(cart.vertices, o.position))`. */
  function Contained(coins: seq<Body>, cart: Body, contains: Containment): (inside: seq<Body>)
    ensures |inside| <= |coins|
    ensures forall c :: c in inside ==> c in coins && contains(cart, c.position)
  {
    if coins == [] then []
    else (if contains(cart, coins[0].position) then [coins[0]] else []) + Contained(coins[1..], cart, contains)
  }

  /** The filter keeps every contained coin as often as it occurs, and nothing else. */
  lemma {:induction false} ContainedExactly(coins: seq<Body>, cart: Body, contains: Containment, c: Body)
    ensures multiset(Contained(coins, cart, contains))[c]
         == if contains(cart, c.position) then multiset(coins)[c] else 0
  {
    if coins != [] {
      ContainedExactly(coins[1..], cart, contains, c);
      assert coins == [coins[0]] + coins[1..];
    }
  }

  /** Every coin is counted iff every coin is inside the cart; none is iff none is. */
  lemma {:induction false} ContainedExtremes(coins: seq<Body>, cart: Body, contains: Containment)
    ensures |Contained(coins, cart, contains)| == |coins| <==> forall i :: 0 <= i < |coins| ==> contains(cart, coins[i].position)
    ensures |Contained(coins, cart, contains)| == 0 <==> forall i :: 0 <= i < |coins| ==> !contains(cart, coins[i].position)
  {
    if coins != [] {
      ContainedExtremes(coins[1..], cart, contains);
      assert forall i :: 1 <= i < |coins| ==> coins[i] == coins[1..][i - 1];
    }
  }

  /** The `StatsModel` constructor. */
  function ComputeStats(world: Option<WorldView>, records: Option<Records>, contains: Containment): (s: StatsModel)
    ensures world.None? ==> s == StatsModel(0, 0, 0, 0, 0)
    ensures world.Some? ==>
      var w := world.value;
      && 0 <= s.coinCount <= |w.coins|
      && s.coinCount == |Contained(w.coins, w.cart, contains)|
      && s.coinMaxCount == w.coinMaxCount
      && s.velocity == Round(w.cart.velocity.x)
      && s.distance == Round(w.cart.position.x)
      && s.distanceMax == Round(Max(RecordDistance(records), w.cart.position.x))
      && s.distanceMax >= s.distance
      && s.distanceMax >= Round(RecordDistance(records))
  {
    if world.Some? then
      var w := world.value;
      RoundMonotone(w.cart.position.x, Max(RecordDistance(records), w.cart.position.x));
      RoundMonotone(RecordDistance(records), Max(RecordDistance(records), w.cart.position.x));
      StatsModel(
        |Contained(w.coins, w.cart, contains)|,
        w.coinMaxCount,
        Round(w.cart.velocity.x),
        Round(w.cart.position.x),
        Round(Max(RecordDistance(records), w.cart.position.x)))
    else
      StatsModel(0, 0, 0, 0, 0)
  }
}
