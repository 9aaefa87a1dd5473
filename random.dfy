/** The sources of randomness the generator draws from, passed in explicitly.
    The program uses two independent streams, Python's `random` module and numpy's
    global `np.random`, and Faker for names and e-mails. Each is an object whose state
    advances with every draw; the generator relies only on the RANGE of each draw,
    stated in the ensures clauses below. The bodies are a linear congruential
    generator standing in for the Mersenne Twister the program seeds. */
module Random {
  import Ids

  const Modulus: nat := 0x8000_0000

  class Rng {
    var state: nat

    constructor (seed: nat)
      ensures state == seed % Modulus
    {
      state := seed % Modulus;
    }

    /** One raw step of the stream. */
    method Next() returns (x: nat)
      modifies this
      ensures x < Modulus && state == x
    {
      state := (state * 1103515245 + 12345) % Modulus;
      x := state;
    }

    /** `random.randint(lo, hi)`: an integer of [lo, hi], both ends included. */
    method RandInt(lo: int, hi: int) returns (r: int)
      requires lo <= hi
      modifies this
      ensures lo <= r <= hi
    {
      var x := Next();
      r := lo + x % (hi - lo + 1);
    }

    /** `random.random()`: a real of [0, 1). */
    method Random() returns (u: real)
      modifies this
      ensures 0.0 <= u < 1.0
    {
      var x := Next();
      u := x as real / Modulus as real;
    }

    /** `random.uniform(lo, hi)`, computed as `lo + (hi - lo) * random()`. */
    method Uniform(lo: real, hi: real) returns (r: real)
      requires lo <= hi
      modifies this
      ensures lo <= r <= hi
    {
      var u := Random();
      var width := hi - lo;
      assert 0.0 <= width * u <= width by {
        assert width * u + width * (1.0 - u) == width;
        assert 0.0 <= width * (1.0 - u);
      }
      r := lo + width * u;
    }

    /** `np.random.choice(xs)`: an element of xs, all equally likely. */
    method Choice<T>(xs: seq<T>) returns (x: T)
      requires |xs| > 0
      modifies this
      ensures x in xs
    {
      var i := RandInt(0, |xs| - 1);
      x := xs[i];
    }

    /** `np.random.choice(xs, p=weights)`: one uniform draw located in the cumulative
        weights, as numpy does; only membership of the result is claimed. */
    method WeightedChoice<T>(xs: seq<T>, weights: seq<real>) returns (x: T)
      requires |xs| == |weights| > 0
      modifies this
      ensures x in xs
    {
      var u := Random();
      var i := 0;
      var cumulative := weights[0];
      while i < |xs| - 1 && cumulative <= u
        invariant 0 <= i < |xs|
      {
        i := i + 1;
        cumulative := cumulative + weights[i];
      }
      x := xs[i];
    }

    /** `np.random.poisson(mean)`: a count. The body is a stand-in (a sum of 2 * mean draws
        of 0 or 1); only the range, a natural number, is claimed. */
    method Poisson(mean: nat) returns (k: nat)
      modifies this
    {
      k := 0;
      for i := 0 to 2 * mean {
        var flip := RandInt(0, 1);
        k := k + flip;
      }
    }
  }

  /** Faker: company names and e-mail addresses, opaque strings to the generator. */
  class Faker {
    var count: nat

    constructor ()
    {
      count := 0;
    }

    method Company() returns (name: string)
      modifies this
      ensures |name| > 0
    {
      count := count + 1;
      name := "Company " + Ids.Digits(count);
    }

    method Email() returns (address: string)
      modifies this
      ensures |address| > 0
    {
      count := count + 1;
      address := "user" + Ids.Digits(count) + "@example.com";
    }
  }
}
