/**
 Timing helpers for baking a lasagna.  All times are whole minutes.  The
 helpers validate nothing: a negative layer count or an elapsed time past the
 expected bake time is accepted and yields whatever the arithmetic gives.
 */
module Lasagna {

  /** Minutes the lasagna is expected to bake. */
  const ExpectedBakeTime: int := 40

  /** Minutes needed to prepare one layer. */
  const PreparationTime: int := 2

  /** Minutes of baking left after `elapsedBakeTime` minutes in the oven. */
  function BakeTimeRemaining(elapsedBakeTime: int): (r: int)
    ensures r + elapsedBakeTime == ExpectedBakeTime
    ensures r < 0 <==> elapsedBakeTime > ExpectedBakeTime
  {
    ExpectedBakeTime - elapsedBakeTime
  }

  /** Minutes spent preparing `numberOfLayers` layers. */
  function PreparationTimeInMinutes(numberOfLayers: int): (r: int)
    ensures r % PreparationTime == 0
    ensures r / PreparationTime == numberOfLayers
  {
    numberOfLayers * PreparationTime
  }

  /** Minutes spent so far: preparing every layer, then baking. */
  function ElapsedTimeInMinutes(numberOfLayers: int, elapsedBakeTime: int): (r: int)
    ensures r - elapsedBakeTime == PreparationTimeInMinutes(numberOfLayers)
    ensures numberOfLayers == 0 ==> r == elapsedBakeTime
  {
    PreparationTimeInMinutes(numberOfLayers) + elapsedBakeTime
  }

  /** Preparation time is additive in layers, and no layers take no time. */
  lemma PreparationAdditive(a: int, b: int)
    ensures PreparationTimeInMinutes(a + b)
         == PreparationTimeInMinutes(a) + PreparationTimeInMinutes(b)
    ensures PreparationTimeInMinutes(0) == 0
  {
  }

  /** Each extra layer adds exactly `PreparationTime` minutes. */
  lemma PreparationPerLayer(n: int)
    ensures PreparationTimeInMinutes(n + 1) == PreparationTimeInMinutes(n) + PreparationTime
  {
  }

  /**
   Time spent plus time remaining does not depend on how long the lasagna
   has already baked: it is always preparation plus the expected bake time.
   */
  lemma CookingTimeFixed(numberOfLayers: int, elapsedBakeTime: int)
    ensures ElapsedTimeInMinutes(numberOfLayers, elapsedBakeTime) + BakeTimeRemaining(elapsedBakeTime)
         == PreparationTimeInMinutes(numberOfLayers) + ExpectedBakeTime
  {
  }
}
