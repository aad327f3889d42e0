/** The value computations inside the handler: the dice and random-number
    draws, the coin flip, JavaScript truthiness and `||` defaulting, and the
    millisecond-to-second conversion of the webhook's creation time. The
    random value `r` is what `Math.random()` returned, taken as a
    mathematical real in [0, 1). */
module Values {
  import opened Wrappers

  /** `Math.floor(r * n) + 1`: the k-th of n equal slices of [0, 1) gives k. */
  function UniformPick(r: real, n: nat): (k: int)
    requires 0.0 <= r < 1.0 && n >= 1
    ensures 1 <= k <= n
  {
    (r * n as real).Floor + 1
  }

  /** Exactly the values of r in the k-th slice pick k (both directions). */
  lemma UniformPickSlice(r: real, n: nat, k: int)
    requires 0.0 <= r < 1.0 && n >= 1
    ensures UniformPick(r, n) == k <==> (k - 1) as real <= r * n as real < k as real
  {
  }

  /** Every value in 1..n is drawn for some r in [0, 1). */
  lemma UniformPickReachesAll(n: nat, k: int)
    requires n >= 1 && 1 <= k <= n
    ensures 0.0 <= (k - 1) as real / n as real < 1.0
    ensures UniformPick((k - 1) as real / n as real, n) == k
  {
  }

  /** The dice roll `Math.floor(Math.random() * 6) + 1` (index.js:56). */
  function DiceRoll(r: real): (roll: int)
    requires 0.0 <= r < 1.0
    ensures 1 <= roll <= 6
  {
    UniformPick(r, 6)
  }

  /** The random number `Math.floor(Math.random() * 100) + 1` (index.js:73). */
  function RandomDraw(r: real): (number: int)
    requires 0.0 <= r < 1.0
    ensures 1 <= number <= 100
  {
    UniformPick(r, 100)
  }

  /** `Math.random() < 0.5 ? 'Heads' : 'Tails'` (index.js:64). */
  function CoinResult(r: real): (result: string)
    ensures result == "Heads" || result == "Tails"
    ensures result == "Heads" <==> r < 0.5
  {
    if r < 0.5 then "Heads" else "Tails"
  }

  datatype Emoji = Coin | Disc

  /** `result === 'Heads' ? coin : disc` (index.js:65). */
  function CoinEmoji(result: string): (e: Emoji)
    ensures e == Coin <==> result == "Heads"
  {
    if result == "Heads" then Coin else Disc
  }

  /** The coin emoji goes with Heads, which comes exactly from r < 0.5. */
  lemma CoinFlipAgrees(r: real)
    ensures CoinEmoji(CoinResult(r)) == Coin <==> r < 0.5
    ensures CoinEmoji(CoinResult(r)) == Disc <==> CoinResult(r) == "Tails"
  {
  }

  /** JavaScript truthiness of a string that may be null or undefined:
      null, undefined and "" are falsy. */
  predicate Truthy(v: Option<string>)
  {
    v.Some? && v.value != ""
  }

  /** `v || fallback` for such a string. */
  function OrDefault(v: Option<string>, fallback: string): (s: string)
    ensures !Truthy(v) ==> s == fallback
    ensures Truthy(v) ==> Some(s) == v
    ensures fallback != "" ==> s != ""
  {
    if Truthy(v) then v.value else fallback
  }

  /** `Math.floor(ms / 1000)` (index.js:184): the whole seconds in ms, rounding
      down also for negative ms. */
  function WholeSeconds(ms: int): (s: int)
    ensures s * 1000 <= ms < s * 1000 + 1000
  {
    ms / 1000
  }
}
